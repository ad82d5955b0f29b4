/** The engine's bounded rolling log: a FIFO of at most `Capacity` lines that the
    engine and the N-body simulation share, appended at the back and evicted from
    the front. */
module Logging {

  /** The most lines the buffer keeps. */
  const Capacity: nat := 100

  /** The last `min(n, |s|)` entries of `s`, in their original order. */
  function LastN<T>(s: seq<T>, n: nat): (r: seq<T>)
    ensures |r| == if n < |s| then n else |s|
    ensures forall k :: 0 <= k < |r| ==> r[k] == s[|s| - |r| + k]
  {
    s[|s| - (if n < |s| then n else |s|)..]
  }

  /** Keeping a window of the history and then adding a line keeps the same window as
      adding the line to the whole history: this is why pushing then evicting once
      is enough to hold exactly the newest `Capacity` lines. */
  lemma {:induction false} LastNSnoc<T>(h: seq<T>, t: T, n: nat)
    requires n >= 1
    ensures |LastN(h, n)| < n ==> LastN(h + [t], n) == LastN(h, n) + [t]
    ensures |LastN(h, n)| == n ==> LastN(h + [t], n) == LastN(h, n)[1..] + [t]
  {
    var w, w' := LastN(h, n), LastN(h + [t], n);
    if |w| < n {
      assert w == h;
      assert w' == h + [t];
    } else {
      assert |h| >= n;
      assert |w'| == n;
      forall k | 0 <= k < n
        ensures w'[k] == (w[1..] + [t])[k]
      {
        if k < n - 1 {
          assert w'[k] == (h + [t])[|h| + 1 - n + k] == h[|h| - n + k + 1];
        }
      }
    }
  }

  /** Every entry followed by a newline, as the log panel receives them. */
  function Lines(xs: seq<string>): string
  {
    if xs == [] then "" else xs[0] + "\n" + Lines(xs[1..])
  }

  /** Adding one more entry at the end adds that entry and one newline. */
  lemma {:induction false} LinesSnoc(xs: seq<string>, x: string)
    ensures Lines(xs + [x]) == Lines(xs) + x + "\n"
  {
    if xs != [] {
      assert (xs + [x])[1..] == xs[1..] + [x];
      LinesSnoc(xs[1..], x);
    } else {
      assert [x][1..] == [];
    }
  }

  /** The index of the first newline of `s`, or `|s|` when there is none. */
  function LineEnd(s: string): (k: nat)
    ensures k <= |s|
    ensures forall i :: 0 <= i < k ==> s[i] != '\n'
    ensures k < |s| ==> s[k] == '\n'
  {
    if s == [] || s[0] == '\n' then 0 else 1 + LineEnd(s[1..])
  }

  /** Cuts text into its newline-terminated lines (a last unterminated line is kept). */
  function SplitLines(s: string): seq<string>
    decreases |s|
  {
    if s == [] then []
    else
      var k := LineEnd(s);
      if k == |s| then [s] else [s[..k]] + SplitLines(s[k + 1..])
  }

  predicate NoNewline(x: string)
  {
    forall i :: 0 <= i < |x| ==> x[i] != '\n'
  }

  /** The text built from entries without newlines splits back into exactly those
      entries, one per line and in order. */
  lemma {:induction false} SplitLinesRoundTrip(xs: seq<string>)
    requires forall k :: 0 <= k < |xs| ==> NoNewline(xs[k])
    ensures SplitLines(Lines(xs)) == xs
  {
    if xs != [] {
      var s := Lines(xs);
      var x := xs[0];
      assert s == x + "\n" + Lines(xs[1..]);
      assert s[|x|] == '\n';
      var k := LineEnd(s);
      assert k == |x|;
      assert s[..k] == x;
      assert s[k + 1..] == Lines(xs[1..]);
      SplitLinesRoundTrip(xs[1..]);
    }
  }

  /** The shared log buffer. `history` is every line ever logged; the buffer holds
      the newest `Capacity` of them. */
  class Logger {
    var logs: seq<string>
    ghost var history: seq<string>

    ghost predicate Valid()
      reads this
    {
      logs == LastN(history, Capacity)
    }

    constructor ()
      ensures Valid()
      ensures history == [] && logs == []
    {
      logs := [];
      history := [];
    }

    /** The number of lines held: never more than `Capacity`. */
    function Len(): (n: nat)
      reads this
      requires Valid()
      ensures n <= Capacity
      ensures n == if |history| < Capacity then |history| else Capacity
    {
      |logs|
    }

    /** Pushes `text` at the back and, once over capacity, evicts the oldest line. */
    method Log(text: string)
      requires Valid()
      modifies this
      ensures Valid()
      ensures history == old(history) + [text]
      ensures |old(logs)| < Capacity ==> logs == old(logs) + [text]
      ensures |old(logs)| == Capacity ==> logs == old(logs)[1..] + [text]
    {
      LastNSnoc(history, text, Capacity);
      logs := logs + [text];
      if |logs| > Capacity {
        logs := logs[1..];
      }
      history := history + [text];
    }

    /** The newest `min(n, Len())` lines, oldest first, each followed by a newline. */
    method GetLogs(n: nat) returns (s: string)
      ensures s == Lines(LastN(logs, n))
    {
      s := "";
      var len := |logs|;
      var start := len - (if n < len then n else len);
      for i := start to len
        invariant s == Lines(logs[start..i])
      {
        LinesSnoc(logs[start..i], logs[i]);
        assert logs[start..i + 1] == logs[start..i] + [logs[i]];
        s := s + logs[i] + "\n";
      }
      assert logs[start..len] == LastN(logs, n);
    }
  }
}
