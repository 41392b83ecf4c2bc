/** The kernel's main loop: one step per kernel entry or timer interrupt, and whole runs. */
module MainLoop {
  import opened KernelTypes
  import opened KernelState
  import opened Requests
  import opened Scheduler
  import opened ShapeProofs

  /** What happens next: a timer interrupt, or the current task entering the kernel. `batches` are
      the ticks that arrive while the kernel idles; `anchor` is explained at `Terminate`. */
  datatype Event =
    | TimerTick
    | Call(request: Request, anchor: nat, batches: seq<nat>)

  function Called(s: KState, r: Request, anchor: nat): (s': KState)
    requires Alive(s)
    ensures Shape(s') && Stays(s, s')
  {
    IssueShape(s, r);
    assert s.current in s.order;
    HandleShape(Issue(s, r), r, anchor);
    Handle(Issue(s, r), r, anchor)
  }

  /** A yield, or a handler that asked for it, ends with a dispatch. */
  predicate Switches(h: KState, r: Request) {
    r.TaskYield? || r.NoRequest? || h.cswitch
  }

  /** Dispatch, with Kernel_Request_Cswitch cleared afterwards. */
  function Switch(h: KState, batches: seq<nat>): (s': Option<KState>)
    requires Shape(h)
    ensures s'.Some? ==> Alive(s'.value)
  {
    DispatchShape(h, batches);
    var d := Dispatch(h, batches);
    if d.None? then None
    else
      TasksShape(d.value, d.value.(cswitch := false));
      Some(d.value.(cswitch := false))
  }

  /** One step; None when the kernel idles on because no task gets ready in `batches`. */
  function Step(s: KState, e: Event): (s': Option<KState>)
    requires Alive(s)
    ensures s'.Some? ==> Alive(s'.value)
  {
    match e
    case TimerTick =>
      TasksShape(s, Tick(s));
      Some(Tick(s))
    case Call(r, anchor, batches) =>
      var h := Called(s, r, anchor);
      if Switches(h, r) then Switch(h, batches) else Some(h)
  }

  function Exec(s: KState, es: seq<Event>): (s': Option<KState>)
    requires Alive(s)
    ensures s'.Some? ==> Alive(s'.value)
    decreases |es|
  {
    if es == [] then Some(s)
    else
      var s1 := Step(s, es[0]);
      if s1.None? then None else Exec(s1.value, es[1..])
  }

  /** `ok` holds of every event of the run, in the state in which it happens. */
  ghost predicate Along(s: KState, es: seq<Event>, ok: (KState, Event) -> bool)
    requires Alive(s)
    decreases |es|
  {
    es != [] ==> ok(s, es[0]) && (Step(s, es[0]).Some? ==> Along(Step(s, es[0]).value, es[1..], ok))
  }

  // ----- before OS_Start

  datatype Creation =
    | ATask(pri: nat)
    | AMutex
    | ASemaphore(initial: int, binary: bool)
    | AnEventGroup
    | AMailbox(capacity: nat)

  const RESET := KState([], map[], 0, 0, 0, 0, [], [], [], [], 0, false, NO_ERR)

  function Create(s: KState, c: Creation): KState {
    match c
    case ATask(pri) => CreateTaskDirect(s, pri).0
    case AMutex => CreateMutex(s).0
    case ASemaphore(initial, binary) => CreateSemaphore(s, initial, binary).0
    case AnEventGroup => CreateEventGroup(s).0
    case AMailbox(capacity) => CreateMailbox(s, capacity).0
  }

  /** The system as main() sets it up between OS_Init and OS_Start. */
  function Configure(cs: seq<Creation>): (s: KState)
    decreases |cs|
  {
    if cs == [] then RESET else Create(Configure(cs[..|cs| - 1]), cs[|cs| - 1])
  }

  lemma ConfigureShape(cs: seq<Creation>)
    ensures Shape(Configure(cs)) && Configure(cs).current == 0 && !Configure(cs).cswitch
    decreases |cs|
  {
    if cs != [] {
      var s, c := Configure(cs[..|cs| - 1]), cs[|cs| - 1];
      ConfigureShape(cs[..|cs| - 1]);
      match c
      case ATask(pri) => CreateTaskShape(s, pri);
      case _ => CreateObjectShape(s, Create(s, c));
    }
  }

  /** Kernel_Start and the first dispatch, which starts from the tail of the task list. */
  function Start(cs: seq<Creation>, batches: seq<nat>): (s: Option<KState>)
    ensures s.Some? ==> Alive(s.value)
  {
    var s := Configure(cs);
    ConfigureShape(cs);
    if s.order == [] then None
    else
      var s1 := s.(last := |s.order| - 1);
      TasksShape(s, s1);
      Switch(s1, batches)
  }
}
