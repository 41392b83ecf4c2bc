/** The kernel's constants and records: kernel_shared.h, os.h, mutex.h, semaphore.h, mailbox.h. */
module KernelTypes {
  type Pid = nat

  const LOWEST_PRIORITY: nat := 10
  const MAXTHREAD: nat := 16
  const STARVATION_MAX: nat := MAXTHREAD * 10
  const MAX_OBJECTS: nat := 8   // MAXMUTEX, MAXSEMAPHORE, MAXMAILBOX and MAXEVENTGROUP
  const WORD: nat := 0x1_0000   // unsigned int and TICK are 16 bits wide on the target

  datatype ProcessState =
    | DEAD | READY | RUNNING | SLEEPING | SUSPENDED
    | WAIT_EVENT | WAIT_EVENTG | WAIT_MUTEX | WAIT_SEMAPHORE | WAIT_MAILBOX

  datatype ErrorCode =
    | NO_ERR | INVALID_ARG_ERR | INVALID_REQUEST_ERR
    | UNPROCESSABLE_TASK_STATE_ERR | MAX_OBJECT_ERR | OBJECT_NOT_FOUND_ERR

  /** A message is a value: `body` stands for the bytes that the kernel copies. */
  datatype Mail = Mail(body: int, size: nat, source: Pid)

  const NO_MAIL := Mail(0, 0, 0)

  /** A system call together with the arguments that its os.c stub stores in the task. */
  datatype Request =
    | NoRequest
    | TaskCreate(pri: nat)
    | TaskTerminate
    | TaskSuspend(pid: Pid)
    | TaskResume(pid: Pid)
    | TaskSleep(timeout: nat)
    | TaskYield
    | MutCreate
    | MutLock(id: nat)
    | MutUnlock(id: nat)
    | SemCreate(initial: int, binary: bool)
    | SemGive(id: nat, amount: int)
    | SemGet(id: nat, amount: int)
    | EgCreate
    | EgSetBits(id: nat, bits: bv16)
    | EgClearBits(id: nat, bits: bv16)
    | EgWaitBits(id: nat, bits: bv16, all: bool, timeout: nat)
    | MbCreate(capacity: nat)
    | MbCheck(id: nat)
    | MbSend(id: nat, body: int, size: nat, blocking: bool, timeout: nat)
    | MbRecv(id: nat, blocking: bool, timeout: nat)
    | Invalid
  {
    /** Whether the os.c stub of this call writes request_args. */
    predicate CarriesArgs() {
      !(NoRequest? || TaskTerminate? || TaskSleep? || TaskYield? || MutCreate? || EgCreate? || Invalid?)
    }

    /** Whether the os.c stub of this call writes request_timeout. */
    predicate SetsTimeout() {
      TaskSleep? || EgWaitBits? || (MbSend? && blocking) || (MbRecv? && blocking)
    }
  }

  /** ProcessDescriptor. `base` (the priority at creation), `held` (the owned mutexes, oldest first)
      and `orderly` (every release so far was safe for the priority) are history that no branch reads. */
  datatype PD = PD(pri: nat, base: nat, state: ProcessState, args: Request, retval: int, timeout: nat,
                   lastState: ProcessState, starvation: nat, dest: Mail, held: seq<nat>, orderly: bool)

  datatype Mut = Mut(owner: Pid, lockCount: nat, highest: nat, ownerOrig: nat,
                     waiters: seq<Pid>, origs: seq<nat>)

  datatype Sem = Sem(count: int, binary: bool, waiters: seq<Pid>)

  /** MAILBOX_TYPE. `delivered` is the history of mails written to receivers. */
  datatype Mb = Mb(capacity: nat, mails: seq<Mail>, send: seq<Pid>, recv: seq<Pid>, delivered: seq<Mail>)

  datatype Option<+T> = None | Some(value: T)

  function Min(a: nat, b: nat): nat { if a < b then a else b }

  ghost predicate NoDup<T(!new)>(s: seq<T>) {
    forall i, j :: 0 <= i < j < |s| ==> s[i] != s[j]
  }

  ghost function Elems<T(!new)>(s: seq<T>): set<T> {
    set i | 0 <= i < |s| :: s[i]
  }

  /** The position of the first `x`, or |s|. */
  function IndexOf<T(==)>(s: seq<T>, x: T): (i: nat)
    ensures i <= |s|
    ensures i < |s| ==> s[i] == x
    ensures x !in s[..i]
    ensures i == |s| ==> x !in s
  {
    if s == [] then 0
    else if s[0] == x then 0
    else
      var r := IndexOf(s[1..], x);
      assert s[..1 + r] == [s[0]] + s[1..][..r];
      1 + r
  }
}
