/**
  What an unbroken trace of events means, in terms of the events themselves.
*/
module Traces {
  import opened Common
  import opened Readers
  import opened ReaderLaws

  predicate Ends(kind: EventKind) {
    kind.Load? || kind.Error? || kind.Abort?
  }

  /** The phase of `g` before event `n`. */
  function Before(log: seq<Event>, g: nat, n: nat): Phase
    requires n <= |log|
  {
    PhaseOf(log[..n], g)
  }

  ghost predicate Unbroken(log: seq<Event>, g: nat) {
    !PhaseOf(log, g).Broken?
  }

  lemma OneMore(log: seq<Event>, g: nat, n: nat)
    requires n < |log|
    ensures Before(log, g, n + 1) == if log[n].generation == g then Next(Before(log, g, n), log[n]) else Before(log, g, n)
  {
    assert log[..n + 1][..n] == log[..n];
  }

  /** A broken trace stays broken. */
  lemma {:induction false} PrefixUnbroken(log: seq<Event>, g: nat, n: nat)
    requires Unbroken(log, g) && n <= |log|
    ensures !Before(log, g, n).Broken?
    decreases |log| - n
  {
    if n == |log| {
      assert log[..n] == log;
    } else {
      PrefixUnbroken(log, g, n + 1);
      OneMore(log, g, n);
    }
  }

  /** No event of `g` lies in `[a, b)`. */
  ghost predicate Silent(log: seq<Event>, g: nat, a: nat, b: nat)
    requires b <= |log|
  {
    forall k :: a <= k < b ==> log[k].generation != g
  }

  lemma {:induction false} SilenceKeeps(log: seq<Event>, g: nat, a: nat, b: nat)
    requires a <= b <= |log| && Silent(log, g, a, b)
    ensures Before(log, g, b) == Before(log, g, a)
    decreases b - a
  {
    if a < b {
      SilenceKeeps(log, g, a, b - 1);
      OneMore(log, g, b - 1);
    }
  }

  /** After a terminal event at `i`, the trace is at its end or one `loadend` past it. */
  lemma {:induction false} AfterEnd(log: seq<Event>, g: nat, i: nat, n: nat)
    requires Unbroken(log, g) && i < n <= |log| && log[i].generation == g && Ends(log[i].kind)
    ensures Before(log, g, n).Over?
         || (Before(log, g, n) == Ended(log[i].reader, log[i].loaded, log[i].total) && Silent(log, g, i + 1, n))
    decreases n - i
  {
    PrefixUnbroken(log, g, n);
    OneMore(log, g, n - 1);
    if n > i + 1 {
      AfterEnd(log, g, i, n - 1);
    }
  }

  lemma {:induction false} AfterOver(log: seq<Event>, g: nat, j: nat, n: nat)
    requires Unbroken(log, g) && j <= n <= |log| && Before(log, g, j).Over?
    ensures Before(log, g, n).Over? && Silent(log, g, j, n)
    decreases n - j
  {
    if j < n {
      AfterOver(log, g, j, n - 1);
      PrefixUnbroken(log, g, n);
      OneMore(log, g, n - 1);
    }
  }

  /**
    After the terminal event of a generation there is at most one more event of
    it, a `loadend` with the same numbers on the same reader: no second terminal
    event, no progress, nothing after `loadend`.
  */
  lemma OnlyLoadendFollows(log: seq<Event>, g: nat, i: nat, j: nat)
    requires Unbroken(log, g) && i < j < |log| && log[i].generation == g == log[j].generation && Ends(log[i].kind)
    ensures log[j].kind.LoadEnd? && log[j].reader == log[i].reader
    ensures log[j].loaded == log[i].loaded && log[j].total == log[i].total
    ensures Silent(log, g, i + 1, j) && Silent(log, g, j + 1, |log|)
  {
    AfterEnd(log, g, i, j);
    PrefixUnbroken(log, g, j + 1);
    OneMore(log, g, j);
    AfterOver(log, g, j + 1, |log|);
  }

  /** The phases a trace can be in say which events it must hold. */
  lemma {:induction false} EndedHasEnd(log: seq<Event>, g: nat, n: nat)
    requires Unbroken(log, g) && n <= |log|
    ensures Before(log, g, n).Ended? || Before(log, g, n).Over? ==>
      (exists i :: 0 <= i < n && log[i].generation == g && Ends(log[i].kind))
    decreases n
  {
    if n > 0 {
      EndedHasEnd(log, g, n - 1);
      PrefixUnbroken(log, g, n);
      OneMore(log, g, n - 1);
    }
  }

  /** `loadend` only after the terminal event of its generation. */
  lemma LoadendHasTerminal(log: seq<Event>, g: nat, j: nat)
    requires Unbroken(log, g) && j < |log| && log[j].generation == g && log[j].kind.LoadEnd?
    ensures exists i :: 0 <= i < j && log[i].generation == g && Ends(log[i].kind)
  {
    PrefixUnbroken(log, g, j + 1);
    OneMore(log, g, j);
    EndedHasEnd(log, g, j);
  }

  predicate IsFinalProgress(e: Event, g: nat, total: nat) {
    e.generation == g && e.kind.Progress? && e.loaded == e.total == total
  }

  lemma {:induction false} CompleteHasFinal(log: seq<Event>, g: nat, n: nat)
    requires Unbroken(log, g) && n <= |log| && Before(log, g, n).Complete?
    ensures exists i :: 0 <= i < n && IsFinalProgress(log[i], g, Before(log, g, n).total)
    decreases n
  {
    assert log[..0] == [];
    if n > 0 {
      PrefixUnbroken(log, g, n);
      OneMore(log, g, n - 1);
      if log[n - 1].generation != g {
        CompleteHasFinal(log, g, n - 1);
      }
    }
  }

  /** `load` always comes after `progress(total)`, for the same total. */
  lemma LoadHasFinalProgress(log: seq<Event>, g: nat, j: nat)
    requires Unbroken(log, g) && j < |log| && log[j].generation == g && log[j].kind.Load?
    ensures log[j].loaded == log[j].total
    ensures exists i :: 0 <= i < j && IsFinalProgress(log[i], g, log[j].total)
  {
    PrefixUnbroken(log, g, j + 1);
    OneMore(log, g, j);
    CompleteHasFinal(log, g, j);
  }

  /** What the trace remembers of a non-final progress event at `i`. */
  lemma {:induction false} ProgressRemembered(log: seq<Event>, g: nat, i: nat, n: nat)
    requires Unbroken(log, g) && i < n <= |log| && log[i].generation == g && log[i].kind.Progress?
    requires log[i].loaded != log[i].total
    ensures Before(log, g, n).Begun? ==>
      Before(log, g, n).last >= log[i].loaded && Before(log, g, n).total == log[i].total > log[i].loaded
    ensures Before(log, g, n).Complete? ==> Before(log, g, n).total == log[i].total > log[i].loaded
    ensures !Before(log, g, n).Quiet?
    ensures Silent(log, g, i + 1, n) ==>
      Before(log, g, n) == Begun(log[i].reader, log[i].total, log[i].loaded, log[i].at)
    decreases n - i
  {
    PrefixUnbroken(log, g, n);
    OneMore(log, g, n - 1);
    if n > i + 1 {
      ProgressRemembered(log, g, i, n - 1);
    }
  }

  /**
    Progress only goes up: a later progress event of the generation reports
    strictly more, and every one but the last reports less than the total.
  */
  lemma ProgressIncreases(log: seq<Event>, g: nat, i: nat, j: nat)
    requires Unbroken(log, g) && i < j < |log|
    requires log[i].generation == g == log[j].generation && log[i].kind.Progress? && log[j].kind.Progress?
    ensures log[i].loaded < log[j].loaded <= log[j].total == log[i].total
  {
    PrefixUnbroken(log, g, j + 1);
    OneMore(log, g, j);
    PrefixUnbroken(log, g, i + 1);
    OneMore(log, g, i);
    if log[i].loaded == log[i].total {
      NoProgressAfterFinal(log, g, i, j);
    } else {
      ProgressRemembered(log, g, i, j);
    }
  }

  lemma {:induction false} NoProgressAfterFinal(log: seq<Event>, g: nat, i: nat, n: nat)
    requires Unbroken(log, g) && i < n <= |log| && log[i].generation == g && log[i].kind.Progress?
    requires log[i].loaded == log[i].total
    ensures PastFinal(Before(log, g, n))
    decreases n - i
  {
    PrefixUnbroken(log, g, n);
    OneMore(log, g, n - 1);
    if n > i + 1 {
      NoProgressAfterFinal(log, g, i, n - 1);
    }
  }

  /**
    Neighbouring progress events before the final one are at least 50 ms apart,
    unless the clock read the one value that stands for "never".
  */
  lemma ProgressSpaced(log: seq<Event>, g: nat, i: nat, j: nat)
    requires Unbroken(log, g) && i < j < |log| && Silent(log, g, i + 1, j)
    requires log[i].generation == g == log[j].generation && log[i].kind.Progress? && log[j].kind.Progress?
    requires log[j].loaded < log[j].total
    ensures log[i].at == I64_MIN || log[i].at + 50 <= log[j].at
  {
    PrefixUnbroken(log, g, j + 1);
    OneMore(log, g, j);
    PrefixUnbroken(log, g, i + 1);
    OneMore(log, g, i);
    if log[i].loaded == log[i].total {
      NoProgressAfterFinal(log, g, i, j);
    } else {
      ProgressRemembered(log, g, i, j);
    }
  }

  /** The first event of a generation is `loadstart`, `error` or `abort`; `abort` is never anything else. */
  lemma FirstEvent(log: seq<Event>, g: nat, j: nat)
    requires Unbroken(log, g) && j < |log| && log[j].generation == g
    ensures Silent(log, g, 0, j) ==> log[j].kind.LoadStart? || log[j].kind.Error? || log[j].kind.Abort?
    ensures log[j].kind.LoadStart? || log[j].kind.Abort? ==> Silent(log, g, 0, j)
  {
    PrefixUnbroken(log, g, j + 1);
    OneMore(log, g, j);
    assert log[..0] == [];
    if Silent(log, g, 0, j) {
      SilenceKeeps(log, g, 0, j);
    } else {
      NotQuiet(log, g, j);
    }
  }

  lemma {:induction false} NotQuiet(log: seq<Event>, g: nat, n: nat)
    requires Unbroken(log, g) && n <= |log| && !Silent(log, g, 0, n)
    ensures !Before(log, g, n).Quiet?
    decreases n
  {
    PrefixUnbroken(log, g, n);
    OneMore(log, g, n - 1);
    if log[n - 1].generation != g {
      NotQuiet(log, g, n - 1);
    }
  }
}
