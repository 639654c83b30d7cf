# Mini_Shell dispatch core in Dafny

This project models `process_arglist` and its three strategies (`myPipe`,
`redirect`, `background`) from `myshell.c` in the Mini_Shell shell. The
shell hands over one command line that is already split into words. The
core does four things:

- it scans the words left to right for the first `|`, `<` or `&`;
- it runs the matching strategy, or the plain fork/exec/wait path when there
  is no operator;
- the writer, redirect and background children write NULL into one slot of
  their copy of the argument array; the reader passes the suffix from
  `pipeIndex+1`; the plain child passes the whole array; each then calls
  `execvp`, unless its `dup2` failed;
- the core returns 1 on success and 0 on failure.

Files and modules:

- `syscalls.dfy`, module `SysCalls`: the outcomes of the system calls as
  inputs, the benign-errno test for `wait`, and `error`'s choice of message.
- `arglist.dfy`, module `ArgList`: the NULL-terminated `char **arglist`, and
  the argument vector `execvp` reads from it.
- `dispatch.dfy`, module `Dispatch`: the scan for the leftmost operator and
  the choice of strategy.
- `shell.dfy`, module `Shell`: the interpreter as a `Process` class (its
  descriptor table, the children it forked, its count of `wait` calls), the
  child branches, the three strategies and `ProcessArglist`.

How operating-system calls are modelled:

- `fork`, `pipe`, `open`, `dup2`, `execvp` and `wait` are outcomes given as
  input (an `Outcomes` record).
- A successful fork creates a fresh `Process` with a copy of the parent's
  descriptor table. It also creates a fresh copy of the argument array,
  which is the child's own memory.
- The child's branch writes NULL into its copy of the array, in place. The
  caller's `arglist` is never written, just as after a real fork.
- A child is recorded as a `Child` value with its role, the argument vector
  it passed to `execvp`, its descriptor table at that moment, and how it
  ended: image replaced, or `exit(1)` after a failed `dup2` or `execvp`.
- errno values are those of Linux (`EINTR` = 4, `ECHILD` = 10).

The scan loop of `process_arglist` (lines 31-55) is written as its own
method, `ScanForOperator`, which returns the index where the loop stops. In
the code the strategies are called inside the loop body (lines 34-54):
when the word at `i` is an operator, the body calls its strategy and then
either returns 0 or leaves the loop with `break`. `ProcessArglist` makes
the same call after the scan instead. The two are equivalent: the loop
stops at the first operator either way, a strategy writes neither the
parent's `arglist` (only each child's copy) nor `i`, and after the call the
code only returns, 0 on -1 and otherwise 1 from the final `return 1`
(line 76), since `i != count`. The plain path (lines 57-74) is written as
the method `RunPlain`, which `ProcessArglist` calls when the index equals
`count`.

What the code does, which its names and comments do not suggest:

- `redirect` is called for `<`, the token named `INPUT_REDIRECT`
  (line 11). Yet it opens the last word in the parent with
  `O_WRONLY | O_CREAT` (line 151), and the child dups that descriptor onto
  `STDOUT_FILENO` (line 158). The command's output goes into the file.
- The parent never closes the descriptor `redirect` opened. After a
  successful open, `Redirect` and `ProcessArglist` state that the table has
  grown by that descriptor.
- The comment at the end of `myPipe` (line 144) speaks of closing the
  pipe in the children, but neither child closes its original pipe
  descriptor after `dup2`. `WriterRun` and `ReaderRun` state that it is
  still open.
- `myPipe` calls `wait` once (line 121), although it forks two children.
- When the second fork fails, the writer child is left running
  (lines 126-133).
- `prepare` and `finalize` are empty, so no signal posture is installed.

## Model

| member | source | states |
|---|---|---|
| `SysCalls.ErrorMessage` | myshell.c:208-227 | `error` selects a message exactly for the six types pipe, dup2, execvp, fork, file and wait; any other type selects nothing |
| `SysCalls.BenignWaitErrnos` | myshell.c:65 | a wait is tolerated when it reaped a child, and a failed wait is tolerated exactly when errno is 4 (`EINTR`) or 10 (`ECHILD`) |
| `SysCalls.ErrorMessagesDistinct` | myshell.c:208-227 | two different recognised types never select the same message |
| `Dispatch.OperatorOf` | myshell.c:9-11 | a word stands for a strategy exactly when it is `\|`, `<` or `&`: `\|` exactly for the pipe, `<` exactly for redirect, `&` exactly for background; no word stands for the plain path |
| `Dispatch.FirstOperator` | myshell.c:31-55 | the index found is at most the word count; no word before it is an operator; the word at it is one, unless it equals the count |
| `Dispatch.FirstOperatorUnique` | myshell.c:31-57 | any index meeting the loop's exit condition is the leftmost operator's index |
| `Dispatch.Select` | myshell.c:31-57 | the plain path is chosen iff no word is an operator; otherwise the chosen strategy is that of the leftmost operator |
| `Dispatch.SelectIgnoresLaterTokens` | myshell.c:31-55 | whatever words follow the leftmost operator, the same index and the same strategy are chosen |
| `Dispatch.ScanForOperator` | myshell.c:31-57 | the `for` loop stops at the leftmost operator, and reaches `count` exactly when there is none |
| `ArgList.ArgvUpToNull` | myshell.c:98 | `execvp` reads the words from the given slot up to the first NULL slot |
| `ArgList.TruncatedArgv` | myshell.c:97-98 | after NULL is written into slot k, `execvp(arglist[0], arglist)` receives exactly the first k words |
| `ArgList.SuffixArgv` | myshell.c:113 | `execvp(arglist[k], &arglist[k])` receives exactly the words from k to the end |
| `Shell.PipeSplitsCommandLine` | myshell.c:97-113 | the writer's words, then `\|`, then the reader's words are the command line; the writer's words hold no operator |
| `Shell.RedirectCutsByCount` | myshell.c:162-163 | `redirect` cuts at count-2, so a leftmost `<` before the second-to-last word reaches `execvp` as an argument |
| `Shell.BackgroundCutsByCount` | myshell.c:185-186 | `background` cuts at count-1, so a `&` that is not last reaches `execvp` as an argument |
| `Shell.ForkFailureIsReported` | myshell.c:126-140 | a failed fork is reported as failure without a wait; the only child left behind is myPipe's writer, when the second fork fails |
| `Shell.ClosingBothEndsRestores` | myshell.c:119-120 | closing both ends of a fresh pipe gives back the descriptor table from before `pipe()` |
| `Shell.ExitsAreReported` | myshell.c:60-189 | for all five child branches (lines 60-62, 93-101, 109-116, 158-166, 186-189), a child that ran as its strategy prescribes reaches `execvp` with its role's vector exactly when it did not exit after a failed dup2; plain and background children always reach it; every call a child exits after has an `error` message |
| `Shell.Process.ForkOf` | myshell.c:58 | the process `fork` creates holds the parent's descriptors, no children and no waits |
| `Shell.Process.Fork` | myshell.c:90 | a successful fork yields a fresh child process with the parent's descriptor table and a fresh copy of the argument array |
| `Shell.Process.Close` | myshell.c:119-120 | closing a descriptor removes exactly it from the table |
| `Shell.Process.Dup2` | myshell.c:93 | dup2 succeeds only when its outcome is success and the old descriptor is open; then the new descriptor refers to what the old one does, and otherwise the table is unchanged |
| `Shell.Process.CreatePipe` | myshell.c:85 | on success the table gains the read end and the write end handed out; on failure it is unchanged |
| `Shell.Process.Open` | myshell.c:151 | the parent's table gains the opened write-only file on success; the call returns -1 on failure |
| `Shell.Process.Wait` | myshell.c:65 | each call counts one wait; it counts as failed exactly when it returned -1 with an errno other than ECHILD and EINTR |
| `Shell.Process.RunWriter` | myshell.c:91-102 | the writer closes the read end and dups the write end onto stdout; only slot pipeIndex becomes NULL; it execs the vector from slot 0; a failed dup2 exits before any slot is written |
| `Shell.Process.RunReader` | myshell.c:107-117 | the reader closes the write end, dups the read end onto stdin, and execs the vector from slot pipeIndex+1 |
| `Shell.Process.RunRedirected` | myshell.c:157-166 | the child dups the opened file onto stdout; only slot count-2 becomes NULL; it execs the vector from slot 0 |
| `Shell.Process.RunDetached` | myshell.c:184-190 | the child makes only slot count-1 NULL and execs the vector from slot 0 |
| `Shell.Process.ForkWriter` | myshell.c:90-102 | after the first fork the parent holds one more child: a writer that, when its dup2 succeeds, execs exactly the words before pipeIndex with stdout on the pipe, and otherwise exits after dup2 |
| `Shell.Process.ForkReader` | myshell.c:106-117 | after the second fork the parent holds one more child: a reader that, when its dup2 succeeds, execs exactly the words after pipeIndex with stdin on the pipe, and otherwise exits after dup2 |
| `Shell.Process.RunPlain` | myshell.c:57-74 | returns 0 exactly when the fork fails or the one wait fails with a non-benign errno; it waits only after a successful fork; the child execs the whole command line with the parent's descriptor table |
| `Shell.Process.MyPipe` | myshell.c:80-145 | returns -1 iff `pipe` fails, either fork fails, or the one wait fails with a non-benign errno, and 1 otherwise; on every path the parent's descriptor table ends as it began; it waits only after both forks succeed; it records the writer and reader children |
| `Shell.Process.Redirect` | myshell.c:147-178 | returns -1 iff `open` fails, the fork fails, or the wait fails with a non-benign errno; the opened file stays in the parent's table and is named by the last word; when its dup2 succeeds, the child execs the words before count-2 with stdout on that file, and otherwise exits after dup2 |
| `Shell.Process.Background` | myshell.c:180-197 | returns -1 exactly when the fork fails; it never waits; it leaves the descriptor table unchanged; the detached child execs the words before count-1 |
| `Shell.Process.ProcessArglist` | myshell.c:23-77 | returns 0 exactly when the selected strategy fails, and 1 otherwise; it waits at most once; the table changes only by redirect's open; the new children are those the strategy forks, in order; each ran as its role prescribes: a plain or background child execs its vector with the parent's descriptors, a writer, reader or redirected child execs its vector exactly when its dup2 succeeded, with stdout on the pipe, stdin on the pipe, or stdout on the file |

## Left out

- Real operating-system semantics: fork, execvp, wait, pipe, dup2 and open are abstract outcomes supplied as input. Process ids, and which child a `wait(NULL)` reaps, are not modelled. The model counts wait calls, so it does not track which of myPipe's two children stays unreaped.
- Concurrency and the data that flows through the pipe: children are recorded one after another, and nothing runs in parallel.
- Diagnostic output: the parent's `error(...)` and `perror("(First fork)")` / `perror("(Second fork)")` calls print text and change no state, so the parent records nothing. A child records which call made it exit. `ErrorMessage` models only the choice of message.
- `prepare` and `finalize` (lines 199-206) have empty bodies, so no signal posture exists to model.
- The creation mode `0644` of the redirect file.
- `execvp` handed a NULL file name: this happens for an empty line; when `|` is the first or the last word; when `&` is the only word (line 185 with count 1); and for any two-word line whose leftmost operator is `<`, such as `< file` or `cat <` (line 162 makes slot 0 NULL, after line 151 opened the last word). The model records the argument vector read from that slot, which is empty, and lets the exec outcome decide. The real call has no defined result.
- `ProcessArglist`: its `requires Dispatchable` excludes one input the code accepts, which is `<` as the only word. For that line, `redirect` opens a file named `<` and its child writes `arglist[-1]` (line 162), which is undefined behaviour in C.
- `ProcessArglist`: `count` is a `nat`, so a negative count is not modelled. For one, the code skips the loop, finds `i == 0`, which is not `count`, and returns 1 without forking.
- The unreachable fall-through after an `execvp` that returns something other than -1.
- The exit status of children: a child that fails calls `exit(1)`, and nothing in the core reads that status.
