/** What a request leaves alone, what the stub stores with it, and when it costs the caller the processor. */
module Effects {
  import opened KernelTypes
  import opened KernelState
  import opened Requests
  import opened ShapeProofs
  import opened MainLoop
  import opened StepScope

  /** No task outside `but` changes in any way, and none appears. */
  ghost predicate OthersSame(s: KState, h: KState, but: set<Pid>) {
    && h.pd.Keys == s.pd.Keys
    && (forall p :: p in s.pd && p !in but ==> p in h.pd && h.pd[p] == s.pd[p])
  }

  /** The caller keeps its state and everything else but for what its stub stored. */
  predicate CallerSame(d: PD, d': PD) {
    d' == d.(args := d'.args, timeout := d'.timeout)
  }

  /** Nothing but descriptors changed, and the request ended without an error and without a switch. */
  predicate Quiet(s: KState, h: KState) {
    && SameList(s, h) && SameTime(s, h) && SameQueues(s, h) && h.egs == s.egs
    && h.current == s.current && h.lastPid == s.lastPid && !h.cswitch && h.err == NO_ERR
  }

  lemma OneTask(s: KState, h: KState, c: Pid)
    requires c in s.pd && c in h.pd && h.pd == s.pd[c := h.pd[c]]
    ensures OthersSame(s, h, {c})
  {
  }

  // ----- the stub

  /** The stub stores the arguments of a call that has any, and the timeout of one that can wait or sleep;
      it touches nothing else of the task, and clears the error. */
  lemma StubStores(s: KState, r: Request)
    requires s.current in s.pd
    ensures var i, c := Issue(s, r), s.current;
      && i == s.(pd := i.pd, err := NO_ERR) && c in i.pd && i.pd == s.pd[c := i.pd[c]]
      && CallerSame(s.pd[c], i.pd[c])
      && (i.pd[c].args == match r
          case NoRequest => s.pd[c].args
          case TaskTerminate => s.pd[c].args
          case TaskSleep(_) => s.pd[c].args
          case TaskYield => s.pd[c].args
          case MutCreate => s.pd[c].args
          case EgCreate => s.pd[c].args
          case Invalid => s.pd[c].args
          case _ => r)
      && (i.pd[c].timeout == match r
          case TaskSleep(t) => t
          case EgWaitBits(_, _, _, t) => t
          case MbSend(_, _, _, true, t) => t
          case MbRecv(_, true, t) => t
          case _ => s.pd[c].timeout)
  {
  }

  lemma Entering(s: KState)
    requires Alive(s)
    ensures s.current in s.order && s.current in s.pd && s.current != 0 && s.lastPid + 1 !in s.pd
  {
    assert s.order[s.last] in s.order;
  }

  /** The kernel handles a request in the state that the stub leaves. */
  lemma CalledHandles(s: KState, r: Request, anchor: nat)
    requires Alive(s) && s.current in s.pd
    ensures ObjectShape(Issue(s, r)) && Issue(s, r).current in Issue(s, r).pd
    ensures Called(s, r, anchor) == Handle(Issue(s, r), r, anchor)
  {
    IssueShape(s, r);
    hide ListShape, ObjectShape, Handle, Issue;
  }

  lemma IssueStores(s: KState, r: Request)
    requires s.current in s.pd && r.CarriesArgs() && !r.SetsTimeout()
    ensures Issue(s, r) == s.(pd := s.pd[s.current := s.pd[s.current].(args := r)], err := NO_ERR)
  {
  }
}
