/** The argument array `arglist` and the argument vectors execvp reads from it. */
module ArgList {

  /** One slot of `char **arglist`: a NULL pointer or a word. */
  datatype Slot = Null | Arg(word: string)

  predicate AllArgs(s: seq<Slot>)
  {
    forall j :: 0 <= j < |s| ==> s[j].Arg?
  }

  /** arglist as the interpreter hands it over: `count` words followed by a
      NULL slot. */
  predicate CommandLine(s: seq<Slot>, count: nat)
  {
    count < |s| && s[count] == Null && AllArgs(s[..count])
  }

  /** The words of a run of non-NULL slots. */
  function Words(s: seq<Slot>): seq<string>
    requires AllArgs(s)
  {
    seq(|s|, j requires 0 <= j < |s| => s[j].word)
  }

  /** The argument vector execvp reads when handed `&s[from]`: the words up
      to the first NULL slot. */
  function ArgvFrom(s: seq<Slot>, from: nat): seq<string>
    decreases |s| - from
  {
    if from >= |s| || s[from].Null? then [] else [s[from].word] + ArgvFrom(s, from + 1)
  }

  lemma WordsSlice(s: seq<Slot>, lo: nat, hi: nat)
    requires AllArgs(s) && lo <= hi <= |s|
    ensures AllArgs(s[lo..hi]) && Words(s[lo..hi]) == Words(s)[lo..hi]
  {
  }

  /** Reading from `from` stops exactly at the NULL in slot `stop`. */
  lemma {:induction false} ArgvUpToNull(s: seq<Slot>, from: nat, stop: nat)
    requires from <= stop < |s| && s[stop].Null?
    requires AllArgs(s[from..stop])
    ensures ArgvFrom(s, from) == Words(s[from..stop])
    decreases stop - from
  {
    if from < stop {
      assert s[from].Arg? by { assert s[from..stop][0] == s[from]; }
      assert s[from + 1..stop] == s[from..stop][1..];
      ArgvUpToNull(s, from + 1, stop);
      assert Words(s[from..stop]) == [s[from].word] + Words(s[from + 1..stop]);
    }
  }

  /** Writing NULL into slot k of a command line leaves exactly the words
      before k for execvp(arglist[0], arglist). */
  lemma TruncatedArgv(s: seq<Slot>, count: nat, k: nat)
    requires CommandLine(s, count) && k <= count
    ensures ArgvFrom(s[k := Null], 0) == Words(s[..count])[..k]
  {
    var t := s[k := Null];
    assert t[0..k] == s[..count][0..k];
    WordsSlice(s[..count], 0, k);
    ArgvUpToNull(t, 0, k);
  }

  /** Handing execvp `&arglist[k]` passes the words from k to the end. */
  lemma SuffixArgv(s: seq<Slot>, count: nat, k: nat)
    requires CommandLine(s, count) && k <= count
    ensures ArgvFrom(s, k) == Words(s[..count])[k..]
  {
    assert s[k..count] == s[..count][k..count];
    WordsSlice(s[..count], k, count);
    ArgvUpToNull(s, k, count);
  }

  lemma Rejoin<T>(xs: seq<T>, k: nat)
    requires k < |xs|
    ensures xs[..k] + [xs[k]] + xs[k + 1..] == xs
  {
    assert xs == xs[..k] + xs[k..];
    assert xs[k..] == [xs[k]] + xs[k + 1..];
  }
}
