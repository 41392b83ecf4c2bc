/** What the selection loop selects, and bounded waiting under round robin. */
module Selection {
  import opened KernelTypes
  import opened KernelState
  import opened Requests
  import opened Scheduler
  import opened ShapeProofs
  import opened MainLoop
  import opened StepScope

  // ----- the declarative meaning of the scan

  predicate Ready(s: KState, k: nat)
    requires s.order != [] && ListShape(s)
  {
    TaskAt(s, k).state == READY
  }

  /** The k-th task visited is READY, and strictly more urgent than every READY task before it. */
  ghost predicate RunningMinimum(s: KState, k: nat)
    requires s.order != [] && ListShape(s)
  {
    && Ready(s, k) && TaskAt(s, k).pri <= LOWEST_PRIORITY
    && forall j: nat :: j < k && Ready(s, j) ==> TaskAt(s, k).pri < TaskAt(s, j).pri
  }

  ghost predicate Starving(s: KState, k: nat)
    requires s.order != [] && ListShape(s)
  {
    Ready(s, k) && !RunningMinimum(s, k) && TaskAt(s, k).starvation >= STARVATION_MAX
  }

  /** Among the first n visited, k is the first READY task of least priority value. */
  ghost predicate FirstBest(s: KState, k: nat, n: nat)
    requires s.order != [] && ListShape(s)
  {
    && k < n && Ready(s, k) && TaskAt(s, k).pri <= LOWEST_PRIORITY
    && forall j: nat :: j < n && Ready(s, j) ==>
         TaskAt(s, k).pri <= TaskAt(s, j).pri && (j < k ==> TaskAt(s, k).pri < TaskAt(s, j).pri)
  }

  /** Among the first n visited, k is the first starving task with the least ticks. */
  ghost predicate FirstStarving(s: KState, k: nat, n: nat)
    requires s.order != [] && ListShape(s)
  {
    && k < n && Starving(s, k)
    && forall j: nat :: j < n && Starving(s, j) ==>
         TaskAt(s, k).starvation <= TaskAt(s, j).starvation
         && (j < k ==> TaskAt(s, k).starvation < TaskAt(s, j).starvation)
  }

  /** What the loop variables mean after n visits. */
  ghost predicate ScanMeans(s: KState, a: Scan, n: nat)
    requires s.order != [] && ListShape(s)
  {
    && (a.next >= 0 ==> FirstBest(s, a.next, n) && a.highest == TaskAt(s, a.next).pri)
    && (a.next < 0 ==> a.highest == LOWEST_PRIORITY + 1
                       && forall j: nat :: j < n && Ready(s, j) ==> TaskAt(s, j).pri > LOWEST_PRIORITY)
    && (a.starved >= 0 ==> FirstStarving(s, a.starved, n))
    && (a.starved < 0 ==> forall j: nat :: j < n ==> !Starving(s, j))
  }

  lemma LookMeans(s: KState, a: Scan, k: nat)
    requires s.order != [] && ListShape(s) && a.next < k && a.starved < k && ScanMeans(s, a, k)
    ensures ScanMeans(s, Look(s, a, k), k + 1)
  {
    hide ListShape;
    assert RunningMinimum(s, k) <==> Ready(s, k) && TaskAt(s, k).pri < a.highest;
  }

  lemma {:induction false} ScanMeaning(s: KState, n: nat)
    requires s.order != [] && ListShape(s)
    ensures ScanMeans(s, ScanTo(s, n), n)
  {
    if n > 0 {
      ScanMeaning(s, n - 1);
      LookMeans(s, ScanTo(s, n - 1), n - 1);
    }
  }

  /** The selected task is the first starving one with the least ticks, if any task starves, and
      otherwise the first READY one of the best priority; there is none only if none is READY. */
  lemma SelectMeaning(s: KState)
    requires s.order != [] && ListShape(s) && forall p :: p in s.order ==> s.pd[p].pri <= LOWEST_PRIORITY
    ensures var n, k := |s.order|, Select(s);
      if exists j: nat :: j < n && Starving(s, j) then k >= 0 && FirstStarving(s, k, n)
      else if k < 0 then forall j: nat :: j < n ==> !Ready(s, j)
      else FirstBest(s, k, n)
  {
    ScanMeaning(s, |s.order|);
  }

  // ----- positions

  /** The scan step at which list position i is visited. */
  function StepOf(s: KState, i: nat): (k: nat)
    requires i < |s.order|
    ensures k < |s.order|
  {
    (i + |s.order| - 1 - s.last % |s.order|) % |s.order|
  }

  lemma {:induction false} Multiple(k: nat, n: nat)
    ensures k > 0 ==> k * n >= n
  {
    if k > 1 {
      Multiple(k - 1, n);
      assert k * n == (k - 1) * n + n;
    }
  }

  lemma NextMultiple(a: int, b: int, n: nat)
    requires a < b && n > 0
    ensures a * n + n <= b * n
  {
    Multiple(b - a, n);
    assert (b - a) * n == b * n - a * n;
  }

  lemma ModIs(x: int, n: nat, q: int, r: nat)
    requires r < n && x == q * n + r
    ensures x % n == r
  {
    var q' := x / n;
    if q > q' { NextMultiple(q', q, n); }
    if q < q' { NextMultiple(q, q', n); }
  }

  lemma ModLess(x: int, n: int)
    requires 0 < n && -n <= x < 2 * n
    ensures x % n == if x < 0 then x + n else if x < n then x else x - n
  {
    if x < 0 { ModIs(x, n, -1, x + n); }
    else if x < n { ModIs(x, n, 0, x); }
    else { ModIs(x, n, 1, x - n); }
  }

  /** Every list position is visited exactly once in a scan of |order| steps. */
  lemma VisitsEachOnce(s: KState, i: nat, k: nat)
    requires i < |s.order| && k < |s.order| && s.last < |s.order|
    ensures Visited(s, k) == i <==> k == StepOf(s, i)
  {
    var n := |s.order|;
    ModLess(s.last, n);
    ModLess(s.last + 1 + k, n);
    ModLess(i + n - 1 - s.last, n);
  }

  /** After the task at scan step k has been dispatched, a task at a later step is that much nearer. */
  lemma GetsNearer(s: KState, s': KState, i: nat, k: nat)
    requires i < |s.order| && s.last < |s.order| && s'.order == s.order && s'.last == Visited(s, k)
    requires k < StepOf(s, i)
    ensures StepOf(s', i) == StepOf(s, i) - k - 1
  {
    var n := |s.order|;
    ModLess(s.last, n);
    ModLess(s.last + 1 + k, n);
    ModLess(i + n - 1 - s.last, n);
    ModLess(s'.last, n);
    ModLess(i + n - 1 - s'.last, n);
  }

  // ----- bounded waiting

  /** Task p is READY at the best READY priority, and no READY task is starving. */
  ghost predicate Favoured(s: KState, p: Pid) {
    && ListShape(s) && p in s.order && s.pd[p].state == READY && s.pd[p].pri <= LOWEST_PRIORITY
    && forall q :: q in s.order && s.pd[q].state == READY ==>
         s.pd[p].pri <= s.pd[q].pri && s.pd[q].starvation < STARVATION_MAX
  }

  lemma TaskIsListed(s: KState, k: nat)
    requires s.order != [] && ListShape(s)
    ensures s.order[Visited(s, k)] in s.order && TaskAt(s, k) == s.pd[s.order[Visited(s, k)]]
  {
  }

  /** A favoured task is selected, or is passed by no more steps than lie between. */
  lemma FavouredIsNearest(s: KState, i: nat)
    requires i < |s.order| && s.last < |s.order| && Favoured(s, s.order[i])
    ensures 0 <= Select(s) <= StepOf(s, i)
    ensures Select(s) == StepOf(s, i) ==> s.order[Visited(s, Select(s))] == s.order[i]
  {
    var n, k := |s.order|, StepOf(s, i);
    VisitsEachOnce(s, i, k);
    ScanMeaning(s, n);
    NoneStarves(s, s.order[i]);
    assert Ready(s, k) && TaskAt(s, k) == s.pd[s.order[i]];
    var c := ScanTo(s, n).next;
    if c > k { TaskIsListed(s, c); }
  }

  lemma NoneStarves(s: KState, p: Pid)
    requires Favoured(s, p) && s.order != []
    ensures forall j: nat :: !Starving(s, j)
  {
    forall j: nat ensures !Starving(s, j) { TaskIsListed(s, j); }
  }

  /** A dispatch is due: the current task yields, or the handler asks for a switch. */
  predicate IsDispatch(s: KState, e: Event)
    requires Alive(s)
  {
    e.Call? && (e.request.TaskYield? || e.request.NoRequest? || Called(s, e.request, e.anchor).cswitch)
  }

  /** The task set is fixed, and whenever a dispatch chooses, p is favoured. */
  ghost predicate FavoursAt(s: KState, e: Event, p: Pid) {
    e.Call? && Alive(s) ==>
      && !e.request.TaskCreate? && !e.request.TaskTerminate?
      && (var h := Called(s, e.request, e.anchor);
          IsDispatch(s, e) && Choice(h, e.batches).Some? ==> Favoured(Choice(h, e.batches).value, p))
  }

  ghost predicate Favours(s: KState, es: seq<Event>, p: Pid)
    requires Alive(s)
    decreases |es|
  {
    es != [] ==> FavoursAt(s, es[0], p) && (Step(s, es[0]).Some? ==> Favours(Step(s, es[0]).value, es[1..], p))
  }

  /** How many dispatches a run contains. */
  function Dispatches(s: KState, es: seq<Event>): nat
    requires Alive(s)
    decreases |es|
  {
    if es == [] || Step(s, es[0]).None? then 0
    else (if IsDispatch(s, es[0]) then 1 else 0) + Dispatches(Step(s, es[0]).value, es[1..])
  }

  /** Whether one of the dispatches of a run runs task p. */
  predicate Runs(s: KState, es: seq<Event>, p: Pid)
    requires Alive(s)
    decreases |es|
  {
    es != [] && Step(s, es[0]).Some? &&
    ((IsDispatch(s, es[0]) && Step(s, es[0]).value.current == p) || Runs(Step(s, es[0]).value, es[1..], p))
  }

  lemma CalledLists(s: KState, r: Request, anchor: nat)
    requires Alive(s) && !r.TaskCreate? && !r.TaskTerminate?
    ensures var h := Called(s, r, anchor); h.order == s.order && h.last == s.last && h.last < |h.order|
  {
    assert s.current in s.order && s.current in s.pd;
    IssueShape(s, r);
    HandleScope(Issue(s, r), r, anchor);
  }

  lemma StepNears(s: KState, e: Event, i: nat)
    requires Alive(s) && i < |s.order| && FavoursAt(s, e, s.order[i]) && Step(s, e).Some?
    ensures var s' := Step(s, e).value;
      && s'.order == s.order
      && (!IsDispatch(s, e) ==> s'.last == s.last)
      && (IsDispatch(s, e) ==> s'.current == s.order[i] || StepOf(s', i) < StepOf(s, i))
  {
    hide Called, Favoured, Choice, ListShape, ObjectShape;
    if e.Call? {
      CalledLists(s, e.request, e.anchor);
      if IsDispatch(s, e) { CalledNears(s, e.request, e.anchor, e.batches, i); }
    }
  }

  lemma CalledNears(s: KState, r: Request, anchor: nat, batches: seq<nat>, i: nat)
    requires Alive(s) && i < |s.order| && Dispatch(Called(s, r, anchor), batches).Some?
    requires !r.TaskCreate? && !r.TaskTerminate? && Favoured(Choice(Called(s, r, anchor), batches).value, s.order[i])
    ensures var s' := Dispatch(Called(s, r, anchor), batches).value;
      s'.order == s.order && (s'.current == s.order[i] || StepOf(s', i) < StepOf(s, i))
  {
    hide Called, Favoured, Dispatch, Choice, ListShape, ObjectShape, Alive;
    CalledLists(s, r, anchor);
    DispatchNears(Called(s, r, anchor), batches, i);
  }

  lemma ChoiceLists(h: KState, batches: seq<nat>)
    requires ListShape(h) && Choice(h, batches).Some?
    ensures Choice(h, batches).value.order == h.order && Choice(h, batches).value.last == h.last
  {
    hide ListShape, SomeReady, Choice, Aged;
    assert OnlyAged(Requeue(h), Choice(h, batches).value);
  }

  lemma DispatchNears(h: KState, batches: seq<nat>, i: nat)
    requires ListShape(h) && i < |h.order| && h.last < |h.order| && Dispatch(h, batches).Some?
    requires Favoured(Choice(h, batches).value, h.order[i])
    ensures var s' := Dispatch(h, batches).value;
      s'.order == h.order && (s'.current == h.order[i] || StepOf(s', i) < StepOf(h, i))
  {
    hide ListShape, Favoured, OnlyAged, ScanTo, Choice, SomeReady;
    var c, s' := Choice(h, batches).value, Dispatch(h, batches).value;
    ChoiceLists(h, batches);
    FavouredIsNearest(c, i);
    if Select(c) < StepOf(c, i) {
      GetsNearer(c, s', i, Select(c));
    }
  }

  /** A task that stays favoured is dispatched within as many dispatches as there are tasks, whatever
      the other tasks do meanwhile. */
  lemma {:induction false} BoundedWaiting(s: KState, es: seq<Event>, i: nat)
    requires Alive(s) && i < |s.order| && Favours(s, es, s.order[i])
    ensures Dispatches(s, es) > StepOf(s, i) ==> Runs(s, es, s.order[i])
    ensures Dispatches(s, es) >= |s.order| ==> Runs(s, es, s.order[i])
    decreases |es|
  {
    hide Step, FavoursAt, IsDispatch, Shape;
    if es != [] && Step(s, es[0]).Some? {
      StepNears(s, es[0], i);
      BoundedWaiting(Step(s, es[0]).value, es[1..], i);
    }
  }

  // ----- the first dispatch

  /** No tick has arrived, and every task is ready with a legal priority. */
  ghost predicate AllFresh(s: KState) {
    s.ticks == 0 && forall p :: p in s.pd ==> s.pd[p].state == READY && s.pd[p].pri <= LOWEST_PRIORITY
  }

  lemma CreateFresh(s: KState, c: Creation)
    requires AllFresh(s) && (c.ATask? ==> c.pri <= LOWEST_PRIORITY)
    ensures AllFresh(Create(s, c))
  {
  }

  lemma {:induction false} ConfigureTasks(cs: seq<Creation>)
    requires forall c :: c in cs && c.ATask? ==> c.pri <= LOWEST_PRIORITY
    ensures AllFresh(Configure(cs))
    decreases |cs|
  {
    if cs == [] {
      assert AllFresh(RESET);
    } else {
      var rest := cs[..|cs| - 1];
      assert forall c :: c in rest ==> c in cs;
      assert cs[|cs| - 1] in cs;
      hide AllFresh, Create;
      ConfigureTasks(rest);
      CreateFresh(Configure(rest), cs[|cs| - 1]);
    }
  }

  lemma DispatchesAtOnce(s: KState, batches: seq<nat>)
    requires ListShape(s) && s.order != [] && s.current !in s.pd && AllFresh(s)
    ensures Dispatch(s, batches).Some?
  {
    assert s.order[0] in s.order && s.order[0] in s.pd;
    assert Choice(s, batches) == Some(s);
    SelectMeaning(s);
    TaskIsListed(s, 0);
    assert Ready(s, 0);
  }

  /** OS_Start always finds a task to run, if main() created any. */
  lemma FirstDispatchSucceeds(cs: seq<Creation>, batches: seq<nat>)
    requires forall c :: c in cs && c.ATask? ==> c.pri <= LOWEST_PRIORITY
    requires Configure(cs).order != []
    ensures Start(cs, batches).Some?
  {
    hide Dispatch, Configure, ObjectShape;
    var s := Configure(cs);
    var s1 := s.(last := |s.order| - 1);
    ConfigureShape(cs);
    ConfigureTasks(cs);
    TasksShape(s, s1);
    assert 0 !in s1.pd;
    DispatchesAtOnce(s1, batches);
  }
}
