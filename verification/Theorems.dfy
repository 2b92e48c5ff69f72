/** The main results about whole contexts, over every run from a fresh start. */
module Theorems {
  import opened Common
  import opened Bridge
  import opened Context
  import opened ContextLaws
  import opened ContextScripts
  import opened ContextRuns
  import P = Promises
  import R = Readers
  import RC = ReaderCalls
  import RL = ReaderLaws
  import RM = ReaderMoves
  import RQ = ReaderSilence
  import RR = ReaderRely
  import RS = ReaderSteps
  import S = Streams
  import SC = StreamCalls
  import SL = StreamLaws
  import T = Traces

  /** A context that some run from a fresh start has led to. */
  ghost predicate Reached(x: Sys) {
    exists concurrency: nat, maxBytes: nat, chunkSize: nat, steps: seq<Step> ::
      x == After(Start(concurrency, maxBytes, chunkSize), steps)
  }

  lemma ReachedInv(x: Sys)
    requires Reached(x)
    ensures SysInv(x, None)
  {
    var concurrency: nat, maxBytes: nat, chunkSize: nat, steps: seq<Step> :|
      x == After(Start(concurrency, maxBytes, chunkSize), steps);
    StartInv(concurrency, maxBytes, chunkSize);
    RunKeeps(Start(concurrency, maxBytes, chunkSize), steps);
  }

  lemma {:induction false} AfterConcat(x: Sys, first: seq<Step>, second: seq<Step>)
    ensures After(x, first + second) == After(After(x, first), second)
    decreases |first|
  {
    hide Advance;
    if first == [] {
      assert first + second == second;
    } else {
      AfterConcat(Advance(x, first[0]), first[1..], second);
      assert (first + second)[1..] == first[1..] + second;
    }
  }

  /** What a reached context turns into is reached too. */
  lemma ReachedAfter(x: Sys, more: seq<Step>)
    requires Reached(x)
    ensures Reached(After(x, more))
  {
    hide Advance;
    var concurrency: nat, maxBytes: nat, chunkSize: nat, steps: seq<Step> :|
      x == After(Start(concurrency, maxBytes, chunkSize), steps);
    AfterConcat(Start(concurrency, maxBytes, chunkSize), steps, more);
  }

  lemma ReachedStart(concurrency: nat, maxBytes: nat, chunkSize: nat)
    ensures Reached(Start(concurrency, maxBytes, chunkSize))
  {
    assert After(Start(concurrency, maxBytes, chunkSize), []) == Start(concurrency, maxBytes, chunkSize);
  }

  // -------------------------------------------------------------------- slots

  /**
    Conservation of slots: before shutdown the bridge's live tokens are the
    disjoint union of pending promise reads, pending FileReader operations and
    live streams; the counters say how many, and the quota holds.
  */
  ghost predicate SlotsConserved(x: Sys) {
    && x.b.tokens == x.p.pending + x.f.pending.Keys + x.s.ops.Keys
    && x.p.pending !! x.f.pending.Keys && x.p.pending !! x.s.ops.Keys && x.f.pending.Keys !! x.s.ops.Keys
    && x.b.active == |x.p.pending| + |x.f.pending.Keys| + |x.s.ops.Keys| <= x.b.limit
    && x.f.active == |x.f.pending|
  }

  lemma RunningConserves(x: Sys, busy: Option<nat>)
    requires Running(x, busy)
    ensures SlotsConserved(x)
  {
    SplitsAsSets(x.b.tokens, x.p.pending, x.f.pending.Keys, x.s.ops.Keys);
  }

  /** At every step boundary of every run. */
  lemma SlotsAreConserved(x: Sys)
    requires Reached(x) && !x.b.shutdown
    ensures SlotsConserved(x)
  {
    ReachedInv(x);
    RunningConserves(x, None);
  }

  /** A reader is loading exactly while it owns one operation, which is of its current generation. */
  ghost predicate LoadingMeansOwning(f: R.ReaderState) {
    forall r :: 0 <= r < |f.natives| ==>
      && (f.natives[r].ready.Loading? <==> R.HasOp(f.pending, r))
      && (forall op :: op in f.pending && f.pending[op].reader == r ==>
            f.pending[op].generation == f.natives[r].generation)
      && (forall op, other :: op in f.pending && f.pending[op].reader == r ==>
            other in f.pending && f.pending[other].reader == r ==> op == other)
  }

  lemma RunningOwns(x: Sys, busy: Option<nat>)
    requires Running(x, busy)
    ensures LoadingMeansOwning(x.f)
  {
    forall r | 0 <= r < |x.f.natives|
      ensures x.f.natives[r].ready.Loading? <==> R.HasOp(x.f.pending, r)
    {
      assert RL.ReaderOk(Room(x), r);
    }
    forall op | op in x.f.pending
      ensures x.f.pending[op].reader < |x.f.natives|
           && x.f.pending[op].generation == x.f.natives[x.f.pending[op].reader].generation
    {
      assert RL.OpLocal(Room(x), ReaderBatch(x.phase), busy, op);
      assert RL.RootOk(Room(x), op);
    }
  }

  /**
    A handler can look at `y` while `script` runs from `x`: between two of its
    acts, or inside an `abort()` of it, where the handlers of `abort` and then
    those of `loadend` run, at any depth.
  */
  ghost predicate Seen(x: Sys, script: Script, y: Sys)
    decreases script, 1
  {
    || y == x
    || (script.Then? && (SeenInside(x, script.act, y) || Seen(Do(x, script.act), script.rest, y)))
  }

  ghost predicate SeenInside(x: Sys, act: Act, y: Sys)
    decreases act, 0
  {
    && act.Abort? && act.reader < |x.f.natives|
    && var (m1, fr) := R.AbortCall(Room(x), act.reader, act.now);
       fr.Some? &&
       var x1 := WithRoom(x, m1);
       var x2 := RunScript(x1, act.onAbort);
       var (m3, last) := AbortRest(x2, fr.value);
       || Seen(x1, act.onAbort, y)
       || (last.Some? && Seen(WithRoom(x2, m3), act.onLoadend, y))
  }

  lemma SeenKept(x: Sys, script: Script, y: Sys, busy: Option<nat>)
    requires SysInv(x, busy) && x.phase.Idle? && Seen(x, script, y)
    requires !x.b.shutdown && busy.Some? ==> busy.value < x.b.next
    ensures SysInv(y, busy)
    decreases script, 1
  {
    hide RunScript, AbortRest, Running;
    if y != x {
      var B := if busy.Some? then busy.value + 1 else 0;
      if SeenInside(x, script.act, y) {
        SeenInsideKept(x, script.act, y, busy);
      } else {
        var x1 := Do(x, script.act);
        DoKeeps(x, script.act, busy, 0, B);
        KeptBusy(x, x1, busy, B);
        SeenKept(x1, script.rest, y, busy);
      }
    }
  }

  lemma SeenInsideKept(x: Sys, act: Act, y: Sys, busy: Option<nat>)
    requires SysInv(x, busy) && x.phase.Idle? && SeenInside(x, act, y)
    requires !x.b.shutdown && busy.Some? ==> busy.value < x.b.next
    ensures SysInv(y, busy)
    decreases act, 0
  {
    hide RunScript, AbortRest, Running, R.AbortCall;
    var (m1, fr) := R.AbortCall(Room(x), act.reader, act.now);
    var x1 := WithRoom(x, m1);
    if x.b.shutdown {
      AbortCallStopped(Room(x), act.reader, act.now);
    } else {
      var B := if busy.Some? then busy.value + 1 else 0;
      AbortBegins(x, act.reader, act.now, busy, 0, B);
      KeptBusy(x, x1, busy, B);
      if Seen(x1, act.onAbort, y) {
        SeenKept(x1, act.onAbort, y, busy);
      } else {
        var x2 := RunScript(x1, act.onAbort);
        var x3 := WithRoom(x2, AbortRest(x2, fr.value).0);
        AbortFirst(x, x1, fr.value, act.onAbort, busy, 0, B);
        KeptTrans(x, x2, x3, busy, 0, B);
        KeptBusy(x, x3, busy, B);
        SeenKept(x3, act.onLoadend, y, busy);
      }
    }
  }

  /** Slots are conserved and loading means owning at every point a handler of a public call can look at. */
  lemma CallsSeeConsistency(x: Sys, script: Script, y: Sys)
    requires Reached(x) && x.phase.Idle? && Seen(x, script, y) && !y.b.shutdown
    ensures SlotsConserved(y) && LoadingMeansOwning(y.f)
  {
    ReachedInv(x);
    SeenKept(x, script, y, None);
    RunningConserves(y, None);
    RunningOwns(y, None);
  }

  /** And at every point a handler of a FileReading job can. */
  lemma HandlersSeeConsistency(x: Sys, now: int, submit: Option<SubmitError>, packError: Option<FileApiError>,
                               handlers: Script, y: Sys)
    requires Reached(x) && !x.b.shutdown && x.phase.Idle? && x.f.jobs != [] && !y.b.shutdown
    requires var (m, fr) := R.JobEnter(RM.JobPopped(Room(x)), x.f.jobs[0], now, submit, packError);
      fr.Some? && Seen(WithRoom(x, m), handlers, y)
    ensures SlotsConserved(y) && LoadingMeansOwning(y.f)
  {
    hide R.JobEnter, Running, SlotsConserved, LoadingMeansOwning, RS.FrameOk;
    var (m, fr) := R.JobEnter(RM.JobPopped(Room(x)), x.f.jobs[0], now, submit, packError);
    var x1 := WithRoom(x, m);
    ReachedInv(x);
    JobStarts(x, now, submit, packError);
    RunningIsOpen(x1, RS.BusyOf(fr));
    SeenKept(x1, handlers, y, RS.BusyOf(fr));
    RunningConserves(y, RS.BusyOf(fr));
    RunningOwns(y, RS.BusyOf(fr));
  }

  lemma LoadingOwns(x: Sys)
    requires Reached(x) && !x.b.shutdown
    ensures LoadingMeansOwning(x.f)
  {
    ReachedInv(x);
    RunningOwns(x, None);
  }

  /**
    Each live reader operation has exactly one work token among task, queue,
    batch and pump job, so its completion queue never holds two entries.
  */
  lemma OneWorkToken(x: Sys, op: nat)
    requires Reached(x) && !x.b.shutdown && op in x.f.pending
    ensures RL.Work(Room(x), ReaderBatch(x.phase), op) == 1
    ensures |At(x.b, op).readerQ| <= 1
  {
    ReachedInv(x);
    assert RL.OpLocal(Room(x), ReaderBatch(x.phase), None, op);
  }

  // ------------------------------------------------------------------- events

  /** No run, with any handlers, breaks the order of events of any generation. */
  lemma TracesUnbroken(x: Sys, g: nat)
    requires Reached(x)
    ensures !RL.PhaseOf(x.f.log, g).Broken?
  {
    ReachedInv(x);
    assert !x.b.shutdown ==> RL.GenLocal(Room(x), g);
  }

  lemma ReachedPublished(x: Sys)
    requires Reached(x)
    ensures RL.PublishedOk(x.f)
  {
    ReachedInv(x);
  }

  /**
    Whatever a FileReader publishes is the whole content of the blob that
    generation asked for, each generation publishes once, and before that it
    reported `progress(total)`, the only such event it ever has.
  */
  lemma PublishedIsWhole(x: Sys, i: nat)
    requires Reached(x) && i < |x.f.published|
    ensures var p := x.f.published[i];
      && p.generation in x.f.asked && p.result.bytes == x.f.asked[p.generation]
      && p.at <= |x.f.log|
      && OnlyFinalBefore(x.f.log, p.generation, |x.f.asked[p.generation]|, p.at)
    ensures forall j :: i < j < |x.f.published| ==> x.f.published[j].generation != x.f.published[i].generation
  {
    hide SysInv, Reached;
    ReachedPublished(x);
    var p := x.f.published[i];
    assert RL.PublicationOk(x.f, p);
    TracesUnbroken(x, p.generation);
    FinalBefore(x.f.log, p.generation, |x.f.asked[p.generation]|, p.at);
  }

  /** One `progress(total)` of `g` lies before place `at`, and there is no other. */
  ghost predicate OnlyFinalBefore(log: seq<R.Event>, g: nat, total: nat, at: nat) {
    exists n :: 0 <= n < Min(at, |log|) && T.IsFinalProgress(log[n], g, total)
      && forall k :: 0 <= k < |log| && T.IsFinalProgress(log[k], g, total) ==> k == n
  }

  lemma FinalBefore(log: seq<R.Event>, g: nat, total: nat, at: nat)
    requires T.Unbroken(log, g) && RL.FinalAt(log, g, at, total)
    ensures OnlyFinalBefore(log, g, total, at)
  {
    T.CompleteHasFinal(log, g, at);
    var n :| 0 <= n < at && T.IsFinalProgress(log[n], g, total);
    forall k | 0 <= k < |log| && T.IsFinalProgress(log[k], g, total)
      ensures k == n
    {
      if k < n {
        T.ProgressIncreases(log, g, k, n);
      } else if n < k {
        T.ProgressIncreases(log, g, n, k);
      }
    }
  }

  /** No reader has generation `h` any more, and none will get it again. */
  ghost predicate Replaced(f: R.ReaderState, h: nat) {
    0 < h < f.nextGeneration && forall r :: 0 <= r < |f.natives| ==> f.natives[r].generation != h
  }

  lemma SteadyReplaced(f: R.ReaderState, f': R.ReaderState, h: nat)
    requires Replaced(f, h) && RQ.Steady(f, f')
    ensures Replaced(f', h)
  {
  }

  lemma RelyReplaced(G: nat, B: nat, m: R.Room, m': R.Room, h: nat)
    requires RR.Rely(G, B, m, m') && h < G && Replaced(m.f, h)
    ensures Replaced(m'.f, h) && RL.EventsOf(m'.f.log, h) == RL.EventsOf(m.f.log, h)
  {
  }

  /** Silent for `h`, and still replaced unless the context was shut down. */
  ghost predicate SilentFor(x: Sys, x': Sys, h: nat) {
    && RL.EventsOf(x'.f.log, h) == RL.EventsOf(x.f.log, h)
    && (!x'.b.shutdown ==> Replaced(x'.f, h))
  }

  lemma SilentTrans(x0: Sys, x1: Sys, x2: Sys, h: nat)
    requires SilentFor(x0, x1, h) && SilentFor(x1, x2, h)
    ensures SilentFor(x0, x2, h)
  {
  }

  lemma ScriptSilent(x: Sys, script: Script, busy: Option<nat>, h: nat)
    requires Running(x, busy) && !x.b.shutdown && x.phase.Idle? && Replaced(x.f, h)
    requires busy.Some? ==> busy.value < x.b.next
    ensures SilentFor(x, RunScript(x, script), h)
  {
    ScriptKeeps(x, script, busy, x.f.nextGeneration, x.b.next);
    if !RunScript(x, script).b.shutdown {
      RelyReplaced(x.f.nextGeneration, x.b.next, Room(x), Room(RunScript(x, script)), h);
    }
  }

  lemma CallSilent(x: Sys, act: Act, h: nat)
    requires Running(x, None) && !x.b.shutdown && Replaced(x.f, h) && (x.phase.Idle? || IsEnvironment(act))
    ensures SilentFor(x, Do(x, act), h)
  {
    DoKeeps(x, act, None, x.f.nextGeneration, x.b.next);
    if !Do(x, act).b.shutdown {
      RelyReplaced(x.f.nextGeneration, x.b.next, Room(x), Room(Do(x, act)), h);
    }
  }

  lemma ResumeSilent(x: Sys, fr: R.Frame, submit: Option<SubmitError>, packError: Option<FileApiError>, h: nat)
    requires fr.generation != h && (!x.b.shutdown ==> Replaced(x.f, h))
    requires x.b.shutdown ==> R.Resume(Room(x), fr, submit, packError).0.b.shutdown
    ensures SilentFor(x, WithRoom(x, R.Resume(Room(x), fr, submit, packError).0), h)
  {
    var m := R.Resume(Room(x), fr, submit, packError).0;
    RQ.ResumeFires(Room(x), fr, submit, packError);
    RQ.OthersSilent(x.f, m.f, fr.reader, fr.generation, h);
    if Replaced(x.f, h) {
      SteadyReplaced(x.f, m.f, h);
    }
  }

  lemma HandledSilent(x: Sys, fr: R.Frame, submit: Option<SubmitError>, packError: Option<FileApiError>,
                      handlers: Script, h: nat)
    requires Running(x, RS.BusyOf(Some(fr))) && !x.b.shutdown && x.phase.Idle? && Replaced(x.f, h)
    requires RS.FrameOk(Room(x), fr) && FrameBound(Room(x), fr) && !fr.pause.AfterAbort? && fr.generation != h
    ensures SilentFor(x, Handled(x, fr, submit, packError, handlers).0, h)
  {
    var x1 := RunScript(x, handlers);
    ScriptKeeps(x, handlers, RS.BusyOf(Some(fr)), x.f.nextGeneration, x.b.next);
    ScriptSilent(x, handlers, RS.BusyOf(Some(fr)), h);
    if x1.b.shutdown {
      ResumeStopped(x1, fr, submit, packError);
    }
    ResumeSilent(x1, fr, submit, packError, h);
    SilentTrans(x, x1, Handled(x, fr, submit, packError, handlers).0, h);
  }

  lemma StartSilent(x: Sys, now: int, submit: Option<SubmitError>, packError: Option<FileApiError>, h: nat)
    requires x.f.jobs != [] && Replaced(x.f, h)
    ensures var (m, fr) := R.JobEnter(RM.JobPopped(Room(x)), x.f.jobs[0], now, submit, packError);
      RL.EventsOf(m.f.log, h) == RL.EventsOf(x.f.log, h) && Replaced(m.f, h)
  {
    var j := x.f.jobs[0];
    var m0 := RM.JobPopped(Room(x));
    var m := R.JobEnter(m0, j, now, submit, packError).0;
    RQ.JobFires(m0, j, now, submit, packError);
    SteadyReplaced(m0.f, m.f, h);
    if j.generation != h {
      RQ.OthersSilent(m0.f, m.f, j.reader, j.generation, h);
    }
  }

  /** The rest of a job whose event has fired. */
  lemma JobEndSilent(x: Sys, fr: R.Frame, submit: Option<SubmitError>, packError: Option<FileApiError>,
                     handlers: Script, h: nat)
    requires Running(x, RS.BusyOf(Some(fr))) && !x.b.shutdown && x.phase.Idle? && Replaced(x.f, h)
    requires RS.FrameOk(Room(x), fr) && FrameBound(Room(x), fr) && !fr.pause.AfterAbort? && fr.generation != h
    ensures var (x2, next) := Handled(x, fr, submit, packError, handlers);
      next.None? && SilentFor(x, x2, h)
  {
    HandledRuns(x, fr, submit, packError, handlers);
    HandledSilent(x, fr, submit, packError, handlers, h);
  }

  /** A job that has just started, and whose frame is not of generation `h`. */
  lemma JobSilent(x: Sys, now: int, submit: Option<SubmitError>, packError: Option<FileApiError>,
                  handlers: Script, h: nat)
    requires Running(x, None) && !x.b.shutdown && x.phase.Idle? && x.f.jobs != [] && Replaced(x.f, h)
    ensures SilentFor(x, Job(x, now, submit, packError, handlers), h)
  {
    hide Running, RS.FrameOk;
    var (m, fr) := R.JobEnter(RM.JobPopped(Room(x)), x.f.jobs[0], now, submit, packError);
    var x1 := WithRoom(x, m);
    JobStarts(x, now, submit, packError);
    StartSilent(x, now, submit, packError, h);
    RunningIsOpen(x1, RS.BusyOf(fr));
    if fr.Some? {
      FrameIsCurrent(x, now, submit, packError);
      JobEndSilent(x1, fr.value, submit, packError, handlers, h);
      SilentTrans(x, x1, Handled(x1, fr.value, submit, packError, handlers).0, h);
    }
  }

  lemma FrameIsCurrent(x: Sys, now: int, submit: Option<SubmitError>, packError: Option<FileApiError>)
    requires Running(x, None) && x.phase.Idle? && x.f.jobs != []
    ensures var (m, fr) := R.JobEnter(RM.JobPopped(Room(x)), x.f.jobs[0], now, submit, packError);
      fr.Some? ==> R.Current(m.f, fr.value.reader, fr.value.generation)
  {
    RC.JobKeeps(Room(x), [], now, submit, packError);
  }

  lemma PollSilent(x: Sys, step: Step, h: nat)
    requires Running(x, None) && !x.b.shutdown && Replaced(x.f, h) && (step.Poll? || step.Turn?)
    ensures SilentFor(x, Advance(x, step), h)
  {
    hide Running;
  }

  lemma StepSilent(x: Sys, step: Step, h: nat)
    requires Running(x, None) && !x.b.shutdown && Replaced(x.f, h)
    ensures SilentFor(x, Advance(x, step), h)
  {
    match step
    case Call(act) =>
      if x.phase.Idle? || IsEnvironment(act) {
        CallSilent(x, act, h);
      }
    case RunPromiseJob =>
    case RunJob(now, submit, packError, handlers) =>
      if x.phase.Idle? && x.f.jobs != [] {
        JobSilent(x, now, submit, packError, handlers, h);
      }
    case Poll(_, _) => PollSilent(x, step, h);
    case Turn(_, _, _) => PollSilent(x, step, h);
  }

  /** Nothing is ever heard again from a generation that was replaced, whatever runs. */
  lemma {:induction false} ReplacedIsSilent(x: Sys, steps: seq<Step>, h: nat)
    requires SysInv(x, None) && (!x.b.shutdown ==> Replaced(x.f, h))
    ensures RL.EventsOf(After(x, steps).f.log, h) == RL.EventsOf(x.f.log, h)
    decreases |steps|
  {
    if steps != [] {
      var x1 := Advance(x, steps[0]);
      AdvanceKeeps(x, steps[0]);
      if x.b.shutdown {
        AdvanceStopped(x, steps[0]);
      } else {
        StepSilent(x, steps[0], h);
      }
      ReplacedIsSilent(x1, steps[1..], h);
    }
  }

  /**
    After shutdown no event fires, no result is published and no owed read gets
    a reply. Promises whose jobs wait in the engine's queue do settle, see
    `Settlements.SettlesAfterShutdown`.
  */
  lemma {:induction false} ShutdownIsFinal(x: Sys, steps: seq<Step>)
    requires SysInv(x, None) && x.b.shutdown
    ensures Frozen(x, After(x, steps)) && After(x, steps).b.shutdown
    decreases |steps|
  {
    if steps != [] {
      AdvanceStopped(x, steps[0]);
      ShutdownIsFinal(Advance(x, steps[0]), steps[1..]);
    }
  }

  // ----------------------------------------------------------------- promises

  /**
    However workers finish, owed promise reads get their replies in submission
    order, each at most once, with the exact bytes of the blob or an error. The
    order in which the promises then settle is `Settlements.SettlementOrder`.
  */
  lemma RepliesInOrder(x: Sys)
    requires Reached(x) && !x.b.shutdown
    ensures Increasing(P.LogIds(x.p.log))
    ensures forall i :: 0 <= i < |x.p.log| ==>
      && x.p.log[i].op !in x.p.pending
      && P.Truthful(x.p, x.p.log[i].op, x.p.log[i].result)
  {
    ReachedInv(x);
    var ids, rest := P.LogIds(x.p.log), P.BatchIds(WholeBatch(x.phase));
    forall i, j | 0 <= i < j < |ids| ensures ids[i] < ids[j] {
      assert (ids + rest)[i] == ids[i] && (ids + rest)[j] == ids[j];
    }
  }

  /** A promise read that is owed holds its slot and one of task, queued or drained answer. */
  lemma PromiseOwed(x: Sys, op: nat)
    requires Reached(x) && !x.b.shutdown && op in x.p.pending
    ensures op in x.b.tokens
    ensures |P.TasksOf(x.p.tasks, op)| + (if op in x.b.completions then 1 else 0)
         + (if op in P.BatchIds(WholeBatch(x.phase)) then 1 else 0) == 1
  {
    ReachedInv(x);
    assert P.Local(Desk(x), WholeBatch(x.phase), op);
    assert At(x.b, op).token && (At(x.b, op).whole.Some? <==> op in x.b.completions);
  }

  // ------------------------------------------------------------------ streams

  /** The invariant behind `StreamResults` holds in every reached, running context. */
  lemma StreamsReached(x: Sys)
    requires Reached(x) && !x.b.shutdown
    ensures SL.StreamInv(World(x), StreamBatch(x.phase))
  {
    ReachedInv(x);
  }

  /**
    The branch of `read()` for a runtime that was shut down is dead: shutdown has
    emptied the table it looks into before, so a later `read()` is answered in a
    job. (Reads that were owed before are not: `Settlements.OwedNeverSettles`.)
  */
  lemma DeadBranchAfterShutdown(x: Sys, lock: nat, submit: Option<SubmitError>)
    requires Reached(x) && lock < |x.s.readers|
    ensures var r := S.ReaderRead(World(x), lock, submit).1;
      !r.NeverSettles? && (x.b.shutdown ==> r.ReaderReleased? || r.Immediate?)
  {
    hide Reached, Running, S.SubmitOrFail, S.Queued;
    ReachedInv(x);
  }

  /** The turn that ends the stream loop is a cleanup sweep. */
  lemma SweepTurn(x: Sys, submit: Option<SubmitError>, packFails: bool, ids: seq<nat>)
    requires x.phase.StreamDrain? && x.phase.stream == []
    ensures var x' := Advance(x, Turn(submit, packFails, ids));
      x'.phase.WholeDrain? && x'.s == S.DrainCleanups(World(x), ids).s
  {
    hide S.DrainCleanups, TakeWhole;
  }

  /**
    No leak: when the stream loop of a poll is over, the sweep it ends with has
    left exactly the live streams that something can still reach.
  */
  lemma PollLeavesNoLeak(x: Sys, submit: Option<SubmitError>, packFails: bool, ids: seq<nat>)
    requires Reached(x) && !x.b.shutdown && x.phase.StreamDrain? && x.phase.stream == []
    requires SC.Covers(ids, x.s)
    ensures var x' := Advance(x, Turn(submit, packFails, ids));
      && x'.phase.WholeDrain?
      && (forall op :: op in x'.s.ops ==> op in x'.s.cells && SC.Rooted(x'.s, op))
      && (forall op :: op in x.s.ops && op in x.s.cells ==> (op in x'.s.ops <==> SC.Rooted(x.s, op)))
  {
    hide S.DrainCleanups, SL.StreamInv, SysInv, TakeWhole;
    StreamsReached(x);
    SweepTurn(x, submit, packFails, ids);
    SC.SweepLeavesNoLeak(World(x), [], ids);
    var w := S.DrainCleanups(World(x), ids);
    var x' := Advance(x, Turn(submit, packFails, ids));
    forall op | op in x'.s.ops
      ensures op in x'.s.cells && SC.Rooted(x'.s, op)
    {
      assert SC.Rooted(w.s, op);
    }
  }
}
