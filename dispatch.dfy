/** Which execution strategy process_arglist picks for a command line. */
module Dispatch {
  import opened SysCalls
  import opened ArgList

  datatype Strategy = Plain | Pipe | Redirect | Background

  /** The strategy an operator token stands for: "|" (PIPE), "<"
      (INPUT_REDIRECT) and "&" (RUN_IN_BG); any other word is an argument. */
  function OperatorOf(token: string): (op: Option<Strategy>)
    ensures op != Some(Plain)
    ensures op.Some? <==> token in {"|", "<", "&"}
    ensures op == Some(Pipe) <==> token == "|"
    ensures op == Some(Redirect) <==> token == "<"
    ensures op == Some(Background) <==> token == "&"
  {
    if token == "|" then Some(Pipe)
    else if token == "<" then Some(Redirect)
    else if token == "&" then Some(Background)
    else None
  }

  predicate IsOperator(token: string)
  {
    OperatorOf(token).Some?
  }

  /** The index of the leftmost operator token, or |ws| when there is none. */
  function FirstOperator(ws: seq<string>): (i: nat)
    ensures i <= |ws|
    ensures forall j :: 0 <= j < i ==> !IsOperator(ws[j])
    ensures i < |ws| ==> IsOperator(ws[i])
  {
    if ws == [] || IsOperator(ws[0]) then 0 else 1 + FirstOperator(ws[1..])
  }

  /** The scan's stopping condition determines the index: any index with no
      operator before it and an operator at it (unless it is |ws|) is the
      leftmost operator's. */
  lemma FirstOperatorUnique(ws: seq<string>, i: nat)
    requires i <= |ws|
    requires forall j :: 0 <= j < i ==> !IsOperator(ws[j])
    requires i < |ws| ==> IsOperator(ws[i])
    ensures i == FirstOperator(ws)
  {
    // a smaller FirstOperator(ws) would put an operator before i; a larger
    // one would deny the operator at i (FirstOperator's ensures)
  }

  /** The strategy for a command line: that of its leftmost operator, or the
      plain fork/exec/wait path when it has none. */
  function Select(ws: seq<string>): (s: Strategy)
    ensures s == Plain <==> forall j :: 0 <= j < |ws| ==> !IsOperator(ws[j])
    ensures s == Plain <==> FirstOperator(ws) == |ws|
    ensures FirstOperator(ws) < |ws| ==> OperatorOf(ws[FirstOperator(ws)]) == Some(s)
  {
    var i := FirstOperator(ws);
    if i == |ws| then Plain else OperatorOf(ws[i]).value
  }

  /** Operator tokens after the leftmost one have no effect: whatever follows
      it, the same index and the same strategy are chosen. */
  lemma SelectIgnoresLaterTokens(ws: seq<string>, rest: seq<string>)
    requires FirstOperator(ws) < |ws|
    ensures FirstOperator(ws[..FirstOperator(ws) + 1] + rest) == FirstOperator(ws)
    ensures Select(ws[..FirstOperator(ws) + 1] + rest) == Select(ws)
  {
    var i := FirstOperator(ws);
    var ws' := ws[..i + 1] + rest;
    assert forall j :: 0 <= j <= i ==> ws'[j] == ws[j];
    FirstOperatorUnique(ws', i);
  }

  /** What the code silently relies on before it indexes arglist: redirect
      writes NULL into slot count-2, which exists only for two or more words. */
  predicate Dispatchable(ws: seq<string>)
  {
    Select(ws) == Redirect ==> |ws| >= 2
  }

  /** The `for` loop of process_arglist: scan left to right and stop at the
      first word equal to PIPE, INPUT_REDIRECT or RUN_IN_BG.  On return,
      i == count exactly when the loop ran to its end. */
  method ScanForOperator(arglist: array<Slot>, count: nat) returns (i: nat)
    requires CommandLine(arglist[..], count)
    ensures i == FirstOperator(Words(arglist[..count]))
  {
    ghost var ws := Words(arglist[..count]);
    i := 0;
    while i < count
      invariant i <= count
      invariant forall j :: 0 <= j < i ==> !IsOperator(ws[j])
    {
      assert arglist[..count][i] == arglist[i];
      var curr := arglist[i].word;
      if curr == "|" || curr == "<" || curr == "&" {
        break;
      }
      i := i + 1;
    }
    FirstOperatorUnique(ws, i);
  }
}
