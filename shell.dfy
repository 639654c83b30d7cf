/** process_arglist and its three strategies (myPipe, redirect, background).

    The interpreter is a Process: its descriptor table, the children it has
    forked and the number of wait calls it has made.  A fork creates a fresh
    Process with a copy of the descriptor table and a fresh copy of the
    argument array (the child's own memory); the child's branch then runs on
    those copies, writing NULL into its own array in place, until execvp
    replaces its image or it calls exit(1).  The interpreter's own
    `arglist` is never written. */
module Shell {
  import opened SysCalls
  import opened ArgList
  import opened Dispatch

  /** The part a forked child plays. */
  datatype Role =
    | Foreground   // the plain path's only child
    | Writer       // myPipe's first child, writing into the pipe
    | Reader       // myPipe's second child, reading from it
    | Redirected   // redirect's child
    | Detached     // background's child, never waited for

  /** How a child ended: execvp replaced its image, or error(call) was
      reported and it called exit(1). */
  datatype Fate = Replaced | ExitedAfter(call: string)

  /** What a forked child did: the argument vector of its execvp call (None
      when it exited before reaching execvp), its descriptor table at that
      moment, and how it ended. */
  datatype Child = Child(role: Role, argv: Option<seq<string>>, fds: map<int, Desc>, fate: Fate)

  function ExecFate(execOk: bool): Fate
  {
    if execOk then Replaced else ExitedAfter("execvp")
  }

  /** The fate of a child that calls dup2 before execvp. */
  function WiredFate(ch: ChildCalls): Fate
  {
    if ch.dup2Ok then ExecFate(ch.execOk) else ExitedAfter("dup2")
  }

  /** The parent-side calls of a strategy (pipe, open, every fork) all succeed. */
  predicate Launches(s: Strategy, os: Outcomes)
  {
    match s
    case Plain => os.fork1
    case Pipe => os.pipe.PipeOk? && os.fork1 && os.fork2
    case Redirect => os.open.OpenOk? && os.fork1
    case Background => os.fork1
  }

  /** The parent calls wait: every strategy but background, once it has launched. */
  predicate Waits(s: Strategy, os: Outcomes)
  {
    s != Background && Launches(s, os)
  }

  /** The strategy reports failure: a parent-side call failed, or the wait
      failed with an errno other than ECHILD and EINTR. */
  predicate Fails(s: Strategy, os: Outcomes)
  {
    !Launches(s, os) || (Waits(s, os) && !WaitTolerated(os.wait))
  }

  /** The roles of the children a strategy forks, in fork order. */
  function Spawned(s: Strategy, os: Outcomes): seq<Role>
  {
    match s
    case Plain => if os.fork1 then [Foreground] else []
    case Pipe =>
      if os.pipe.PipeFail? || !os.fork1 then []
      else if os.fork2 then [Writer, Reader] else [Writer]
    case Redirect => if os.open.OpenOk? && os.fork1 then [Redirected] else []
    case Background => if os.fork1 then [Detached] else []
  }

  /** The argument vector each role hands to execvp, for the words ws of the
      command line whose leftmost operator is at i.  Redirect and background
      cut at positions computed from the word count, not from i. */
  function ExecArgs(role: Role, ws: seq<string>, i: nat): seq<string>
    requires i <= |ws|
  {
    match role
    case Foreground => ws
    case Writer => ws[..i]
    case Reader => if i < |ws| then ws[i + 1..] else []
    case Redirected => if |ws| >= 2 then ws[..|ws| - 2] else []
    case Detached => if |ws| >= 1 then ws[..|ws| - 1] else []
  }

  /** A child as the strategy that forked it leaves it, for the words ws of
      the command line whose leftmost operator is at i; parentFds is the
      parent's descriptor table at the fork.  A plain or detached child always
      reaches execvp with the parent's descriptors.  A writer, reader or
      redirected child reaches it exactly when its dup2 succeeded, with
      stdout or stdin wired to the pipe or the file. */
  predicate RanAsPrescribed(c: Child, ws: seq<string>, i: nat, os: Outcomes, parentFds: map<int, Desc>)
    requires i <= |ws|
  {
    match c.role
    case Foreground =>
      c == Child(Foreground, Some(ExecArgs(Foreground, ws, i)), parentFds, ExecFate(os.child1.execOk))
    case Writer =>
      os.pipe.PipeOk? && WriterRun(c, ExecArgs(Writer, ws, i), os.pipe.rd, os.pipe.wr, os.child1)
    case Reader =>
      os.pipe.PipeOk? && ReaderRun(c, ExecArgs(Reader, ws, i), os.pipe.rd, os.pipe.wr, os.child2)
    case Redirected =>
      os.open.OpenOk? && |ws| >= 2 &&
      RedirectedRun(c, ExecArgs(Redirected, ws, i), os.open.fd, ws[|ws| - 1], os.child1)
    case Detached =>
      c == Child(Detached, Some(ExecArgs(Detached, ws, i)), parentFds, ExecFate(os.child1.execOk))
  }

  /** Every child from index `from` on ran as its role prescribes. */
  predicate ChildrenAsPrescribed(cs: seq<Child>, from: nat, ws: seq<string>, i: nat, os: Outcomes,
                                 parentFds: map<int, Desc>)
    requires i <= |ws|
  {
    forall k :: from <= k < |cs| ==> RanAsPrescribed(cs[k], ws, i, os, parentFds)
  }

  /** cs is before followed by one child per role, in order. */
  predicate Appended(before: seq<Child>, cs: seq<Child>, roles: seq<Role>)
  {
    && |cs| == |before| + |roles|
    && cs[..|before|] == before
    && forall k :: 0 <= k < |roles| ==> cs[|before| + k].role == roles[k]
  }

  /** A child that ran as prescribed passed its role's vector to execvp
      exactly when it did not exit after a failed dup2, and every call it
      exited after is one that `error` has a message for. */
  lemma ExitsAreReported(c: Child, ws: seq<string>, i: nat, os: Outcomes, parentFds: map<int, Desc>)
    requires i <= |ws| && RanAsPrescribed(c, ws, i, os, parentFds)
    ensures c.argv.None? <==> c.fate == ExitedAfter("dup2")
    ensures c.argv.Some? ==> c.argv.value == ExecArgs(c.role, ws, i)
    ensures c.role == Foreground || c.role == Detached ==> c.argv.Some?
    ensures c.fate.ExitedAfter? ==> ErrorMessage(c.fate.call).Some?
  {
  }

  lemma PipeChildren(before: seq<Child>, cs: seq<Child>, ws: seq<string>, i: nat, os: Outcomes,
                     parentFds: map<int, Desc>)
    requires i < |ws| && |cs| == |before| + |Spawned(Pipe, os)| && cs[..|before|] == before
    requires |Spawned(Pipe, os)| >= 1 ==> WriterRun(cs[|before|], ws[..i], os.pipe.rd, os.pipe.wr, os.child1)
    requires |Spawned(Pipe, os)| == 2 ==> ReaderRun(cs[|before| + 1], ws[i + 1..], os.pipe.rd, os.pipe.wr, os.child2)
    ensures Appended(before, cs, Spawned(Pipe, os))
    ensures ChildrenAsPrescribed(cs, |before|, ws, i, os, parentFds)
  {
  }

  lemma RedirectChildren(before: seq<Child>, cs: seq<Child>, ws: seq<string>, i: nat, os: Outcomes,
                         parentFds: map<int, Desc>)
    requires i <= |ws| && |ws| >= 2
    requires |cs| == |before| + |Spawned(Redirect, os)| && cs[..|before|] == before
    requires |Spawned(Redirect, os)| == 1 ==>
      RedirectedRun(cs[|before|], ws[..|ws| - 2], os.open.fd, ws[|ws| - 1], os.child1)
    ensures Appended(before, cs, Spawned(Redirect, os))
    ensures ChildrenAsPrescribed(cs, |before|, ws, i, os, parentFds)
  {
  }

  lemma BackgroundChildren(before: seq<Child>, cs: seq<Child>, ws: seq<string>, i: nat, os: Outcomes,
                           parentFds: map<int, Desc>)
    requires i <= |ws| && |ws| >= 1
    requires cs == before +
      if os.fork1 then [Child(Detached, Some(ws[..|ws| - 1]), parentFds, ExecFate(os.child1.execOk))] else []
    ensures Appended(before, cs, Spawned(Background, os))
    ensures ChildrenAsPrescribed(cs, |before|, ws, i, os, parentFds)
  {
    if os.fork1 {
      assert cs[|before|].role == Detached;
    }
  }

  lemma PlainChildren(before: seq<Child>, cs: seq<Child>, ws: seq<string>, i: nat, os: Outcomes,
                      parentFds: map<int, Desc>)
    requires i <= |ws|
    requires cs == before +
      if os.fork1 then [Child(Foreground, Some(ws), parentFds, ExecFate(os.child1.execOk))] else []
    ensures Appended(before, cs, Spawned(Plain, os))
    ensures ChildrenAsPrescribed(cs, |before|, ws, i, os, parentFds)
  {
    if os.fork1 {
      assert cs[|before|].role == Foreground;
    }
  }

  /** The writer's and the reader's vectors, with the pipe operator between
      them, are the whole command line; the writer's holds no operator. */
  lemma PipeSplitsCommandLine(ws: seq<string>)
    requires Select(ws) == Pipe
    ensures var i := FirstOperator(ws);
      ExecArgs(Writer, ws, i) + ["|"] + ExecArgs(Reader, ws, i) == ws
    ensures forall t :: t in ExecArgs(Writer, ws, FirstOperator(ws)) ==> !IsOperator(t)
  {
    var i := FirstOperator(ws);
    assert ws[i] == "|";
    Rejoin(ws, i);
  }

  /** redirect cuts at count-2 whatever the index of "<": a leftmost "<"
      before the second-to-last word reaches execvp as an argument. */
  lemma RedirectCutsByCount(ws: seq<string>)
    requires Select(ws) == Redirect && FirstOperator(ws) < |ws| - 2
    ensures "<" in ExecArgs(Redirected, ws, FirstOperator(ws))
  {
    var i := FirstOperator(ws);
    assert ws[..|ws| - 2][i] == ws[i] == "<";
  }

  /** background cuts at count-1 whatever the index of "&": when "&" is not
      the last word, it reaches execvp as an argument. */
  lemma BackgroundCutsByCount(ws: seq<string>)
    requires Select(ws) == Background && FirstOperator(ws) < |ws| - 1
    ensures "&" in ExecArgs(Detached, ws, FirstOperator(ws))
  {
    var i := FirstOperator(ws);
    assert ws[..|ws| - 1][i] == ws[i] == "&";
  }

  /** A failed fork is always reported.  Only myPipe leaves a child behind
      when it fails: the writer, once the second fork fails. */
  lemma ForkFailureIsReported(s: Strategy, os: Outcomes)
    requires !os.fork1 || (s == Pipe && !os.fork2)
    ensures Fails(s, os) && !Waits(s, os)
    ensures Spawned(s, os) == if s == Pipe && os.pipe.PipeOk? && os.fork1 then [Writer] else []
  {
  }

  /** What the parent records of myPipe's writer child (RunWriter proves its
      whole table): after a successful dup2 stdout is the pipe's write end,
      descriptor rd no longer refers to the read end, and the original write
      descriptor is still open.  Other descriptors are not constrained. */
  predicate WriterRun(c: Child, argv: seq<string>, rd: int, wr: int, ch: ChildCalls)
  {
    && c.role == Writer
    && c.argv == (if ch.dup2Ok then Some(argv) else None)
    && c.fate == WiredFate(ch)
    && (ch.dup2Ok ==> 1 in c.fds && c.fds[1] == PipeWrite)
    && wr in c.fds && c.fds[wr] == PipeWrite
    && (rd in c.fds ==> c.fds[rd] == PipeWrite)
  }

  /** What the parent records of myPipe's reader child (RunReader proves its
      whole table): after a successful dup2 stdin is the pipe's read end,
      descriptor wr no longer refers to the write end, and the original read
      descriptor is still open.  Other descriptors are not constrained. */
  predicate ReaderRun(c: Child, argv: seq<string>, rd: int, wr: int, ch: ChildCalls)
  {
    && c.role == Reader
    && c.argv == (if ch.dup2Ok then Some(argv) else None)
    && c.fate == WiredFate(ch)
    && (ch.dup2Ok ==> 0 in c.fds && c.fds[0] == PipeRead)
    && rd in c.fds && c.fds[rd] == PipeRead
    && (wr in c.fds ==> c.fds[wr] == PipeRead)
  }

  /** The child of redirect: stdout is the file the parent opened. */
  predicate RedirectedRun(c: Child, argv: seq<string>, fd: int, path: string, ch: ChildCalls)
  {
    && c.role == Redirected
    && c.argv == (if ch.dup2Ok then Some(argv) else None)
    && c.fate == WiredFate(ch)
    && (ch.dup2Ok ==> 1 in c.fds && c.fds[1] == WriteFile(path))
    && fd in c.fds && c.fds[fd] == WriteFile(path)
  }

  /** Closing both ends of a freshly created pipe gives back the descriptor
      table the process had before pipe(). */
  lemma ClosingBothEndsRestores(fds: map<int, Desc>, rd: int, wr: int)
    requires rd != wr && rd !in fds && wr !in fds
    ensures fds[rd := PipeRead][wr := PipeWrite] - {rd} - {wr} == fds
  {
    var t := fds[rd := PipeRead][wr := PipeWrite] - {rd} - {wr};
    assert t.Keys == fds.Keys;
  }

  class Process {
    var fds: map<int, Desc>
    var children: seq<Child>
    var waits: nat

    /** The process fork() creates: the same descriptors, no children. */
    constructor ForkOf(parent: Process)
      ensures fds == parent.fds && children == [] && waits == 0
    {
      fds := parent.fds;
      children := [];
      waits := 0;
    }

    /** A successful fork(): the child process and its copy of the argument array. */
    method Fork(arglist: array<Slot>) returns (child: Process, mem: array<Slot>)
      ensures fresh(child) && fresh(mem)
      ensures child.fds == fds && child.children == [] && child.waits == 0
      ensures mem[..] == arglist[..]
    {
      child := new Process.ForkOf(this);
      mem := new Slot[arglist.Length](j requires 0 <= j < arglist.Length reads arglist => arglist[j]);
    }

    method Close(fd: int)
      modifies this`fds
      ensures fds == old(fds) - {fd}
    {
      fds := fds - {fd};
    }

    /** dup2(oldfd, newfd): newfd comes to refer to what oldfd refers to. */
    method Dup2(oldfd: int, newfd: int, ok: bool) returns (r: bool)
      modifies this`fds
      ensures r == (ok && oldfd in old(fds))
      ensures fds == if r then old(fds)[newfd := old(fds)[oldfd]] else old(fds)
    {
      r := ok && oldfd in fds;
      if r {
        fds := fds[newfd := fds[oldfd]];
      }
    }

    method CreatePipe(p: PipeOutcome) returns (ok: bool, rd: int, wr: int)
      modifies this`fds
      ensures ok == p.PipeOk?
      ensures ok ==> rd == p.rd && wr == p.wr
      ensures fds == if ok then old(fds)[rd := PipeRead][wr := PipeWrite] else old(fds)
    {
      ok := p.PipeOk?;
      if ok {
        rd, wr := p.rd, p.wr;
        fds := fds[rd := PipeRead][wr := PipeWrite];
      } else {
        rd, wr := -1, -1;
      }
    }

    /** open(path, O_WRONLY | O_CREAT, 0644). */
    method Open(path: string, o: OpenOutcome) returns (fd: int)
      modifies this`fds
      ensures fd == if o.OpenOk? then o.fd else -1
      ensures fds == if o.OpenOk? then old(fds)[fd := WriteFile(path)] else old(fds)
    {
      if o.OpenOk? {
        fd := o.fd;
        fds := fds[fd := WriteFile(path)];
      } else {
        fd := -1;
      }
    }

    /** wait(NULL), answering whether the shell treats it as failed. */
    method Wait(w: WaitOutcome) returns (failed: bool)
      modifies this`waits
      ensures waits == old(waits) + 1
      ensures failed == !WaitTolerated(w)
    {
      waits := waits + 1;
      failed := w.WaitFailed? && !(w.errno == ECHILD || w.errno == EINTR);
    }

    /** myPipe's first child: close the read end, dup2 the write end onto
        stdout, write NULL into slot pipeIndex, execvp(arglist[0], arglist). */
    method RunWriter(args: array<Slot>, pipeIndex: nat, rd: int, wr: int, ch: ChildCalls)
      returns (c: Child)
      requires pipeIndex < args.Length && rd != wr && wr in fds
      modifies this`fds, args
      ensures c.role == Writer && c.fds == fds && c.fate == WiredFate(ch)
      ensures args[..] == if ch.dup2Ok then old(args[..])[pipeIndex := Null] else old(args[..])
      ensures c.argv == if ch.dup2Ok then Some(ArgvFrom(args[..], 0)) else None
      ensures fds == if ch.dup2Ok then (old(fds) - {rd})[1 := old(fds)[wr]] else old(fds) - {rd}
    {
      Close(rd);
      var ok := Dup2(wr, 1, ch.dup2Ok);
      if !ok {
        c := Child(Writer, None, fds, ExitedAfter("dup2"));
        return;
      }
      args[pipeIndex] := Null;
      c := Child(Writer, Some(ArgvFrom(args[..], 0)), fds, ExecFate(ch.execOk));
    }

    /** myPipe's second child: close the write end, dup2 the read end onto
        stdin, execvp(arglist[pipeIndex+1], &arglist[pipeIndex+1]). */
    method RunReader(args: array<Slot>, pipeIndex: nat, rd: int, wr: int, ch: ChildCalls)
      returns (c: Child)
      requires rd != wr && rd in fds
      modifies this`fds
      ensures c.role == Reader && c.fds == fds && c.fate == WiredFate(ch)
      ensures c.argv == if ch.dup2Ok then Some(ArgvFrom(args[..], pipeIndex + 1)) else None
      ensures fds == if ch.dup2Ok then (old(fds) - {wr})[0 := old(fds)[rd]] else old(fds) - {wr}
    {
      Close(wr);
      var ok := Dup2(rd, 0, ch.dup2Ok);
      if !ok {
        c := Child(Reader, None, fds, ExitedAfter("dup2"));
        return;
      }
      c := Child(Reader, Some(ArgvFrom(args[..], pipeIndex + 1)), fds, ExecFate(ch.execOk));
    }

    /** redirect's child: dup2 the opened file onto stdout, write NULL into
        slot count-2, execvp(arglist[0], arglist). */
    method RunRedirected(args: array<Slot>, count: nat, fd: int, ch: ChildCalls)
      returns (c: Child)
      requires 2 <= count <= args.Length && fd in fds
      modifies this`fds, args
      ensures c.role == Redirected && c.fds == fds && c.fate == WiredFate(ch)
      ensures args[..] == if ch.dup2Ok then old(args[..])[count - 2 := Null] else old(args[..])
      ensures c.argv == if ch.dup2Ok then Some(ArgvFrom(args[..], 0)) else None
      ensures fds == if ch.dup2Ok then old(fds)[1 := old(fds)[fd]] else old(fds)
    {
      var ok := Dup2(fd, 1, ch.dup2Ok);
      if !ok {
        c := Child(Redirected, None, fds, ExitedAfter("dup2"));
        return;
      }
      args[count - 2] := Null;
      c := Child(Redirected, Some(ArgvFrom(args[..], 0)), fds, ExecFate(ch.execOk));
    }

    /** background's child: write NULL into slot count-1, execvp(arglist[0], arglist). */
    method RunDetached(args: array<Slot>, count: nat, ch: ChildCalls) returns (c: Child)
      requires 1 <= count <= args.Length
      modifies args
      ensures args[..] == old(args[..])[count - 1 := Null]
      ensures c == Child(Detached, Some(ArgvFrom(args[..], 0)), fds, ExecFate(ch.execOk))
    {
      args[count - 1] := Null;
      c := Child(Detached, Some(ArgvFrom(args[..], 0)), fds, ExecFate(ch.execOk));
    }

    /** fork() in myPipe, first child: the parent records the writer. */
    method ForkWriter(arglist: array<Slot>, count: nat, pipeIndex: nat, rd: int, wr: int, ch: ChildCalls)
      requires CommandLine(arglist[..], count) && pipeIndex < count
      requires rd != wr && rd in fds && wr in fds && fds[rd] == PipeRead && fds[wr] == PipeWrite
      modifies this`children
      ensures |children| == |old(children)| + 1 && children[..|old(children)|] == old(children)
      ensures WriterRun(children[|old(children)|], Words(arglist[..count])[..pipeIndex], rd, wr, ch)
    {
      var writer, mem := Fork(arglist);
      var c := writer.RunWriter(mem, pipeIndex, rd, wr, ch);
      TruncatedArgv(arglist[..], count, pipeIndex);
      children := children + [c];
    }

    /** fork() in myPipe, second child: the parent records the reader. */
    method ForkReader(arglist: array<Slot>, count: nat, pipeIndex: nat, rd: int, wr: int, ch: ChildCalls)
      requires CommandLine(arglist[..], count) && pipeIndex < count
      requires rd != wr && rd in fds && wr in fds && fds[rd] == PipeRead && fds[wr] == PipeWrite
      modifies this`children
      ensures |children| == |old(children)| + 1 && children[..|old(children)|] == old(children)
      ensures ReaderRun(children[|old(children)|], Words(arglist[..count])[pipeIndex + 1..], rd, wr, ch)
    {
      var reader, mem := Fork(arglist);
      var c := reader.RunReader(mem, pipeIndex, rd, wr, ch);
      SuffixArgv(arglist[..], count, pipeIndex + 1);
      children := children + [c];
    }

    /** The plain path, `if (i == count)` in process_arglist: fork, the child
        execs the whole command line, the parent waits once. */
    method RunPlain(count: nat, arglist: array<Slot>, os: Outcomes) returns (r: int)
      requires CommandLine(arglist[..], count)
      modifies this`children, this`waits
      ensures r == 0 || r == 1
      ensures r == 0 <==> (!os.fork1 || !WaitTolerated(os.wait))
      ensures waits == old(waits) + (if os.fork1 then 1 else 0)
      ensures children == old(children) +
        if os.fork1
        then [Child(Foreground, Some(Words(arglist[..count])), fds, ExecFate(os.child1.execOk))]
        else []
    {
      if !os.fork1 {
        // error("fork")
        return 0;
      }
      var child, mem := Fork(arglist);
      SuffixArgv(arglist[..], count, 0);
      children := children + [Child(Foreground, Some(ArgvFrom(mem[..], 0)), child.fds, ExecFate(os.child1.execOk))];
      var failed := Wait(os.wait);
      // error("wait") when failed
      r := if failed then 0 else 1;
    }

    /** myPipe(count, arglist, pipeIndex). */
    method MyPipe(count: nat, arglist: array<Slot>, pipeIndex: nat, os: Outcomes) returns (r: int)
      requires CommandLine(arglist[..], count) && pipeIndex < count
      requires FreshPipe(os.pipe, fds)
      modifies this
      ensures r == -1 || r == 1
      ensures r == -1 <==> (os.pipe.PipeFail? || !os.fork1 || !os.fork2 || !WaitTolerated(os.wait))
      // both pipe ends are closed again on every path that created them
      ensures fds == old(fds)
      ensures waits == old(waits) + (if Waits(Strategy.Pipe, os) then 1 else 0)
      ensures |children| == |old(children)| + |Spawned(Strategy.Pipe, os)|
      ensures children[..|old(children)|] == old(children)
      ensures |Spawned(Strategy.Pipe, os)| >= 1 ==>
        WriterRun(children[|old(children)|], Words(arglist[..count])[..pipeIndex],
                  os.pipe.rd, os.pipe.wr, os.child1)
      ensures |Spawned(Strategy.Pipe, os)| == 2 ==>
        ReaderRun(children[|old(children)| + 1], Words(arglist[..count])[pipeIndex + 1..],
                  os.pipe.rd, os.pipe.wr, os.child2)
    {
      var ok, rd, wr := CreatePipe(os.pipe);
      if !ok {
        // error("pipe")
        return -1;
      }
      if !os.fork1 {
        // error("fork"); perror("(First fork)")
        Close(rd);
        Close(wr);
        ClosingBothEndsRestores(old(fds), rd, wr);
        return -1;
      }
      ForkWriter(arglist, count, pipeIndex, rd, wr, os.child1);
      if !os.fork2 {
        // error("fork"); perror("(Second fork)"); the writer is left running
        Close(rd);
        Close(wr);
        ClosingBothEndsRestores(old(fds), rd, wr);
        return -1;
      }
      ghost var afterWriter := children;
      ForkReader(arglist, count, pipeIndex, rd, wr, os.child2);
      assert children[..|old(children)| + 1] == afterWriter by {
        assert children[..|old(children)| + 1] == children[..|afterWriter|];
      }
      Close(rd);
      Close(wr);
      ClosingBothEndsRestores(old(fds), rd, wr);
      var failed := Wait(os.wait);
      if failed {
        // error("wait")
        return -1;
      }
      return 1;
    }

    /** redirect(count, arglist): the file is opened in the parent. */
    method Redirect(count: nat, arglist: array<Slot>, os: Outcomes) returns (r: int)
      requires CommandLine(arglist[..], count) && count >= 2
      requires FreshOpen(os.open, fds)
      modifies this
      ensures r == -1 || r == 1
      ensures r == -1 <==> (os.open.OpenFail? || !os.fork1 || !WaitTolerated(os.wait))
      // the parent never closes the file it opened
      ensures fds == if os.open.OpenOk? then old(fds)[os.open.fd := WriteFile(arglist[count - 1].word)] else old(fds)
      ensures waits == old(waits) + (if Waits(Strategy.Redirect, os) then 1 else 0)
      ensures |children| == |old(children)| + |Spawned(Strategy.Redirect, os)|
      ensures children[..|old(children)|] == old(children)
      ensures |Spawned(Strategy.Redirect, os)| == 1 ==>
        RedirectedRun(children[|old(children)|], Words(arglist[..count])[..count - 2],
                      os.open.fd, arglist[count - 1].word, os.child1)
    {
      var fd := Open(arglist[count - 1].word, os.open);
      if fd == -1 {
        // error("file")
        return -1;
      }
      if !os.fork1 {
        // error("fork")
        return -1;
      }
      var child, mem := Fork(arglist);
      var c := child.RunRedirected(mem, count, fd, os.child1);
      TruncatedArgv(arglist[..], count, count - 2);
      children := children + [c];
      var failed := Wait(os.wait);
      if failed {
        // error("wait")
        return -1;
      }
      return 1;
    }

    /** background(count, arglist): fork and return without waiting. */
    method Background(count: nat, arglist: array<Slot>, os: Outcomes) returns (r: int)
      requires CommandLine(arglist[..], count) && count >= 1
      modifies this
      ensures r == if os.fork1 then 1 else -1
      ensures fds == old(fds) && waits == old(waits)
      ensures children == old(children) +
        if os.fork1
        then [Child(Detached, Some(Words(arglist[..count])[..count - 1]), old(fds), ExecFate(os.child1.execOk))]
        else []
    {
      if !os.fork1 {
        // error("fork")
        return -1;
      }
      var child, mem := Fork(arglist);
      var c := child.RunDetached(mem, count, os.child1);
      TruncatedArgv(arglist[..], count, count - 1);
      children := children + [c];
      return 1;
    }

    /** process_arglist(count, arglist): 1 on success, 0 on failure. */
    method ProcessArglist(count: nat, arglist: array<Slot>, os: Outcomes) returns (r: int)
      requires CommandLine(arglist[..], count)
      requires Dispatchable(Words(arglist[..count]))
      requires FreshPipe(os.pipe, fds) && FreshOpen(os.open, fds)
      modifies this
      ensures r == 0 || r == 1
      ensures r == 0 <==> Fails(Select(Words(arglist[..count])), os)
      ensures waits == old(waits) + (if Waits(Select(Words(arglist[..count])), os) then 1 else 0)
      ensures var ws := Words(arglist[..count]);
        fds == if Select(ws) == Strategy.Redirect && os.open.OpenOk?
               then old(fds)[os.open.fd := WriteFile(ws[|ws| - 1])]
               else old(fds)
      ensures Appended(old(children), children, Spawned(Select(Words(arglist[..count])), os))
      ensures var ws := Words(arglist[..count]);
        ChildrenAsPrescribed(children, |old(children)|, ws, FirstOperator(ws), os, old(fds))
    {
      ghost var ws := Words(arglist[..count]);
      var i := ScanForOperator(arglist, count);
      if i < count {
        // a strategy's -1 becomes 0; every other outcome ends the loop with `break`
        var curr := arglist[i].word;
        assert curr == ws[i];
        var p: int;
        if curr == "|" {
          assert Select(ws) == Strategy.Pipe;
          p := MyPipe(count, arglist, i, os);
          PipeChildren(old(children), children, ws, i, os, old(fds));
        } else if curr == "<" {
          assert Select(ws) == Strategy.Redirect && ws[|ws| - 1] == arglist[count - 1].word;
          p := Redirect(count, arglist, os);
          RedirectChildren(old(children), children, ws, i, os, old(fds));
        } else {
          assert Select(ws) == Strategy.Background;
          p := Background(count, arglist, os);
          BackgroundChildren(old(children), children, ws, i, os, old(fds));
        }
        r := if p == -1 then 0 else 1;
      } else {
        // i == count: no operator
        assert Select(ws) == Plain;
        r := RunPlain(count, arglist, os);
        PlainChildren(old(children), children, ws, i, os, old(fds));
      }
    }
  }
}
