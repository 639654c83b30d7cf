/** The system calls the shell core makes, reduced to their outcomes.

    Nothing of the operating system is modelled: every call's outcome (did
    fork succeed, which descriptors did pipe hand out, what errno did wait
    leave behind) is an input to the model.  What is modelled is how the
    shell classifies those outcomes. */
module SysCalls {

  datatype Option<T> = None | Some(value: T)

  /** What an open descriptor refers to. */
  datatype Desc =
    | Inherited(fd: int)        // a descriptor the interpreter already held
    | PipeRead                  // the read end of the pipe made by myPipe
    | PipeWrite                 // the write end of that pipe
    | WriteFile(path: string)   // a file opened with O_WRONLY | O_CREAT

  /** pipe(pipefd): two fresh descriptors, or -1. */
  datatype PipeOutcome = PipeOk(rd: int, wr: int) | PipeFail

  /** open(path, ...): a fresh descriptor, or -1. */
  datatype OpenOutcome = OpenOk(fd: int) | OpenFail

  /** wait(NULL): a child was reaped, or -1 with errno set. */
  datatype WaitOutcome = Reaped | WaitFailed(errno: int)

  /** The outcomes of the calls one forked child makes before its image is replaced. */
  datatype ChildCalls = ChildCalls(dup2Ok: bool, execOk: bool)

  /** The outcomes of every call one dispatch can make.  fork1 is the first
      (for most strategies the only) fork of the parent, fork2 the second
      fork of myPipe; child1 and child2 are the children they create. */
  datatype Outcomes = Outcomes(
    pipe: PipeOutcome,
    open: OpenOutcome,
    fork1: bool,
    fork2: bool,
    child1: ChildCalls,
    child2: ChildCalls,
    wait: WaitOutcome)

  // errno values as Linux defines them
  const EINTR: int := 4
  const ECHILD: int := 10

  /** A failing wait is harmless when there was no child left to wait for or
      the call was interrupted by a signal: both arise when children are
      reaped asynchronously. */
  predicate BenignWaitErrno(errno: int)
  {
    errno == ECHILD || errno == EINTR
  }

  /** The test `(wait(NULL) == -1) && !(errno == ECHILD || errno == EINTR)`
      is false: the shell carries on as if the wait succeeded. */
  predicate WaitTolerated(w: WaitOutcome)
  {
    w.Reaped? || BenignWaitErrno(w.errno)
  }

  /** The wait test fails only on -1 with an errno other than ECHILD and
      EINTR: a reaped child and exactly those two errnos are tolerated. */
  lemma BenignWaitErrnos(w: WaitOutcome)
    ensures WaitTolerated(Reaped)
    ensures w.WaitFailed? ==> (WaitTolerated(w) <==> w.errno in {4, 10})
  {
  }

  /** What an operating system may answer to pipe(): two distinct
      non-negative descriptors that the process does not hold yet. */
  predicate FreshPipe(p: PipeOutcome, fds: map<int, Desc>)
  {
    p.PipeOk? ==> 0 <= p.rd && 0 <= p.wr && p.rd != p.wr && p.rd !in fds && p.wr !in fds
  }

  /** What an operating system may answer to open(): a non-negative
      descriptor that the process does not hold yet. */
  predicate FreshOpen(o: OpenOutcome, fds: map<int, Desc>)
  {
    o.OpenOk? ==> 0 <= o.fd && o.fd !in fds
  }

  /** The type names `error` recognises. */
  const ERROR_KINDS: set<string> := {"pipe", "dup2", "execvp", "fork", "file", "wait"}

  /** The message `error(type)` hands to perror; an unknown type prints nothing. */
  function ErrorMessage(kind: string): (m: Option<string>)
    ensures m.Some? <==> kind in ERROR_KINDS
  {
    if kind == "pipe" then Some("Pipe creation failed.")
    else if kind == "dup2" then Some("Call to dup2() failed.")
    else if kind == "execvp" then Some("Call to execvp() failed.")
    else if kind == "fork" then Some("Fork creation failed.")
    else if kind == "file" then Some("Error opening file.")
    else if kind == "wait" then Some("Call to wait() failed.")
    else None
  }

  /** Every recognised type has its own message, so a diagnostic names the
      failing operation unambiguously. */
  lemma ErrorMessagesDistinct(k1: string, k2: string)
    requires k1 in ERROR_KINDS && k2 in ERROR_KINDS && k1 != k2
    ensures ErrorMessage(k1) != ErrorMessage(k2)
  {
  }
}
