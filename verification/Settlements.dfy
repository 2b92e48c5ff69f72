/**
  When promises settle: over every run of a context, in which order, and what
  shutdown leaves of it.
*/
module Settlements {
  import opened Common
  import opened Bridge
  import opened Context
  import opened ContextLaws
  import opened ContextRuns
  import opened JobOrder
  import opened JobSteps
  import opened Jobs
  import opened Theorems
  import P = Promises
  import S = Streams
  import SG = StreamGrowth
  import SL = StreamLaws

  /** Every job there ever was is one that a client recorded, and every reply is in line. */
  ghost predicate JobsMatch(x: Sys) {
    && Consistent(x.q)
    && Chosen(Everything(x.q), ReplyOf) == x.p.log
    && Chosen(Everything(x.q), ChunkOf) == x.s.log
    && Chosen(Everything(x.q), CallOf) == Range(0, x.q.calls)
    && RepliesOk(x.p) && NumbersOk(x.s)
  }

  lemma ExtendsTrans(a: Queue, b: Queue, c: Queue)
    requires Extends(a, b) && Extends(b, c)
    ensures Extends(a, c)
  {
  }

  lemma AddsKeeps(x: Sys, x': Sys, more: seq<PromiseJob>)
    requires JobsMatch(x) && Adds(x, x', more) && RepliesOk(x'.p) && NumbersOk(x'.s)
    ensures JobsMatch(x') && Extends(x.q, x'.q)
  {
    hide Chosen, RepliesOk, NumbersOk;
    assert Everything(x'.q) == Everything(x.q) + more;
    ChosenConcat(Everything(x.q), more, RejectionOf);
    ChosenConcat(Everything(x.q), more, ReplyOf);
    ChosenConcat(Everything(x.q), more, ChunkOf);
    ChosenConcat(Everything(x.q), more, CallOf);
    assert Range(0, x.q.calls) + Range(x.q.calls, x'.q.calls) == Range(0, x'.q.calls);
  }

  lemma RunHeadMatches(x: Sys)
    requires JobsMatch(x) && x.q.jobs != []
    ensures JobsMatch(x.(q := RunHead(x.q))) && Extends(x.q, RunHead(x.q))
  {
    hide Chosen, RepliesOk, Consistent, NumbersOk;
    var j := x.q.jobs[0];
    var second := if Defers(j) then [Rejection(j.reply)] else [];
    RunHeadKeeps(x.q);
    assert Everything(RunHead(x.q)) == Everything(x.q) + second;
    ChosenConcat(Everything(x.q), second, ReplyOf);
    ChosenConcat(Everything(x.q), second, ChunkOf);
    ChosenConcat(Everything(x.q), second, CallOf);
    SecondIs(second);
  }

  lemma SecondIs(second: seq<PromiseJob>)
    requires second == [] || (|second| == 1 && second[0].Rejection?)
    ensures Chosen(second, ReplyOf) == [] && Chosen(second, ChunkOf) == [] && Chosen(second, CallOf) == []
  {
    if second != [] {
      ChosenFirst(second, ReplyOf);
      ChosenFirst(second, ChunkOf);
      ChosenFirst(second, CallOf);
    }
  }

  lemma AdvanceMatches(x: Sys, step: Step)
    requires SysInv(x, None) && JobsMatch(x)
    ensures JobsMatch(Advance(x, step)) && Extends(x.q, Advance(x, step).q) && SG.Grew(x.s, Advance(x, step).s)
  {
    hide SysInv, JobsMatch, Adds, Extends, SG.Grew;
    if step.RunPromiseJob? {
      SG.Unchanged(x.s);
      AddsNothing(x);
      if x.phase.Idle? && x.q.jobs != [] {
        RunHeadMatches(x);
      }
    } else {
      AdvanceOnward(x, step);
      var more :| Adds(x, Advance(x, step), more);
      MatchesReplies(x);
      AddsKeeps(x, Advance(x, step), more);
    }
  }

  lemma MatchesReplies(x: Sys)
    requires JobsMatch(x)
    ensures RepliesOk(x.p) && NumbersOk(x.s)
  {
  }

  lemma AddsNothing(x: Sys)
    ensures Extends(x.q, x.q)
  {
  }

  lemma {:induction false} RunMatches(x: Sys, steps: seq<Step>)
    requires SysInv(x, None) && JobsMatch(x)
    ensures JobsMatch(After(x, steps)) && Extends(x.q, After(x, steps).q) && SG.Grew(x.s, After(x, steps).s)
    decreases |steps|
  {
    hide SysInv, JobsMatch, Advance, SG.Grew, Extends;
    if steps == [] {
      AddsNothing(x);
      SG.Unchanged(x.s);
    } else {
      var x1 := Advance(x, steps[0]);
      AdvanceKeeps(x, steps[0]);
      AdvanceMatches(x, steps[0]);
      RunMatches(x1, steps[1..]);
      ExtendsTrans(x.q, x1.q, After(x, steps).q);
      SG.GrewTrans(x.s, x1.s, After(x, steps).s);
    }
  }

  lemma StartMatches(concurrency: nat, maxBytes: nat, chunkSize: nat)
    ensures JobsMatch(Start(concurrency, maxBytes, chunkSize))
  {
  }

  lemma ReachedMatches(x: Sys)
    requires Reached(x)
    ensures JobsMatch(x)
  {
    hide SysInv, JobsMatch, After;
    var concurrency: nat, maxBytes: nat, chunkSize: nat, steps: seq<Step> :|
      x == After(Start(concurrency, maxBytes, chunkSize), steps);
    StartInv(concurrency, maxBytes, chunkSize);
    StartMatches(concurrency, maxBytes, chunkSize);
    RunMatches(Start(concurrency, maxBytes, chunkSize), steps);
  }

  lemma LaterMatches(x: Sys, steps: seq<Step>)
    requires Reached(x)
    ensures JobsMatch(x) && JobsMatch(After(x, steps)) && Extends(x.q, After(x, steps).q)
  {
    hide Reached, SysInv, JobsMatch, After, Extends, SG.Grew;
    ReachedInv(x);
    ReachedMatches(x);
    RunMatches(x, steps);
  }

  // -------------------------------------------------------------------- order

  /** The owed promise reads that have settled, in the order in which they did. */
  function SettledReads(x: Sys): seq<P.Reply> {
    Chosen(x.q.ran, SettledOf)
  }

  lemma MatchesLine(x: Sys)
    requires JobsMatch(x)
    ensures Consistent(x.q) && InLine(x.q)
  {
  }

  /**
    The order of settlement. Of the replies that wait in the queue, however
    many polls brought them, those that are no worker errors settle first, then
    the worker errors, both in submission order: at every later point of every
    run what has settled of them is a prefix of that, and in the end all of it.
  */
  lemma SettlementOrder(x: Sys, steps: seq<Step>)
    requires Reached(x)
    ensures var waiting, q' := Stretch(x.q), After(x, steps).q;
      && |x.q.ran| <= |q'.ran|
      && var settled := RepliesTo(SettledBetween(x.q, q'), Ops(waiting));
         && settled <= LateLast(waiting)
         && ((forall r :: r in waiting ==> r in SettledBetween(x.q, q')) ==> settled == LateLast(waiting))
  {
    hide Reached, JobsMatch, After, Chosen, RepliesTo, LateLast, Stretch, Consistent, InLine, Ops;
    var q' := After(x, steps).q;
    LaterMatches(x, steps);
    MatchesLine(x);
    MatchesLine(After(x, steps));
    StretchOrder(x.q, q');
    if forall r :: r in Stretch(x.q) ==> r in SettledBetween(x.q, q') {
      StretchComplete(x.q, q');
    }
  }

  /**
    Exactly when that is submission order: when no worker error that waits is
    followed by a waiting reply that is none.
  */
  lemma SettlementInOrderExactly(x: Sys, steps: seq<Step>)
    requires Reached(x)
    requires |x.q.ran| <= |After(x, steps).q.ran|
    requires forall r :: r in Stretch(x.q) ==> r in SettledBetween(x.q, After(x, steps).q)
    ensures var waiting := Stretch(x.q);
      var settled := RepliesTo(SettledBetween(x.q, After(x, steps).q), Ops(waiting));
      Increasing(P.LogIds(settled)) <==> !ErrorOvertaken(waiting)
  {
    hide Reached, JobsMatch, After, Chosen, RepliesTo, LateLast, Consistent, InLine, Ops, ErrorOvertaken, Extends;
    SettlementOrder(x, steps);
    LaterMatches(x, []);
    MatchesLine(x);
    SameQueue(x.q);
    StretchApart(x.q, x.q);
    InOrderExactly(Stretch(x.q));
  }

  lemma SameQueue(q: Queue)
    ensures Extends(q, q)
  {
  }

  /** What a run added to a queue is exactly what ran and what still waits. */
  ghost predicate Between(q: Queue, q': Queue, run: seq<PromiseJob>, more: seq<PromiseJob>) {
    && q'.ran == q.ran + run && Everything(q') == Everything(q) + more && run + q'.jobs == q.jobs + more
  }

  // ------------------------------------------------------------ after shutdown

  /** After shutdown only rejections that were on their way and answers to new calls are queued. */
  ghost predicate AddedAfter(x: Sys, y: Sys, run: seq<PromiseJob>, more: seq<PromiseJob>) {
    && Between(x.q, y.q, run, more) && x.q.calls <= y.q.calls
    && Chosen(more, ReplyOf) == [] && Chosen(more, ChunkOf) == []
    && Chosen(more, CallOf) == Range(x.q.calls, y.q.calls)
    && Chosen(more, RejectionOf) == Chosen(run, DeferredOf)
  }

  lemma Cancel<T>(a: seq<T>, b: seq<T>, c: seq<T>)
    requires a + b == a + c
    ensures b == c
  {
    assert b == (a + b)[|a|..] && c == (a + c)[|a|..];
  }

  lemma AddedAfterShutdown(x: Sys, steps: seq<Step>)
    requires Reached(x) && x.b.shutdown
    ensures var y := After(x, steps);
      && |x.q.ran| <= |y.q.ran| && |Everything(x.q)| <= |Everything(y.q)|
      && AddedAfter(x, y, y.q.ran[|x.q.ran|..], Everything(y.q)[|Everything(x.q)|..])
  {
    hide Reached, After, SysInv, Chosen, RepliesOk, Consistent, Extends;
    var y := After(x, steps);
    ReachedInv(x);
    ShutdownIsFinal(x, steps);
    LaterMatches(x, steps);
    AddedAndRun(x.q, y.q);
    AddedRejections(x.q, y.q);
    ExtendedCalls(x.q, y.q);
    var more := Everything(y.q)[|Everything(x.q)|..];
    ChosenConcat(Everything(x.q), more, ReplyOf);
    ChosenConcat(Everything(x.q), more, ChunkOf);
    ChosenConcat(Everything(x.q), more, CallOf);
    assert Range(0, x.q.calls) + Range(x.q.calls, y.q.calls) == Range(0, y.q.calls);
    assert x.p.log + [] == x.p.log && x.s.log + [] == x.s.log;
    Cancel(x.p.log, Chosen(more, ReplyOf), []);
    Cancel(x.s.log, Chosen(more, ChunkOf), []);
    Cancel(Range(0, x.q.calls), Chosen(more, CallOf), Range(x.q.calls, y.q.calls));
  }

  lemma ExtendedCalls(q: Queue, q': Queue)
    requires Extends(q, q')
    ensures q.calls <= q'.calls && |q.ran| <= |q'.ran| && |Everything(q)| <= |Everything(q')|
  {
  }

  /** A promise that settles after shutdown: its job waited then, or its call came later. */
  ghost predicate MaySettle(x: Sys, y: Sys, t: Ticket) {
    About(x.q.jobs, t) || (t.Call? && x.q.calls <= t.call < y.q.calls)
  }

  lemma AboutConcat(a: seq<PromiseJob>, b: seq<PromiseJob>, t: Ticket)
    ensures About(a + b, t) <==> About(a, t) || About(b, t)
  {
    if i :| 0 <= i < |a| && Who(a[i]) == t {
      assert (a + b)[i] == a[i];
    }
    if i :| 0 <= i < |b| && Who(b[i]) == t {
      assert (a + b)[|a| + i] == b[i];
    }
    if i :| 0 <= i < |a + b| && Who((a + b)[i]) == t {
      assert i < |a| ==> a[i] == (a + b)[i];
      assert i >= |a| ==> b[i - |a|] == (a + b)[i];
    }
  }

  /** The job behind a rejection that was added after shutdown waited then. */
  lemma RejectionWaited(x: Sys, y: Sys, run: seq<PromiseJob>, more: seq<PromiseJob>, r: P.Reply)
    requires AddedAfter(x, y, run, more) && r in Chosen(more, RejectionOf)
    ensures About(x.q.jobs, Whole(r.op))
  {
    hide Chosen;
    ChosenHas(run, DeferredOf, r);
    var k :| 0 <= k < |run| && DeferredOf(run[k]) == Some(r);
    assert run[k] == (x.q.jobs + more)[k] by {
      assert (run + y.q.jobs)[k] == run[k];
    }
    if k < |x.q.jobs| {
      assert x.q.jobs[k] == run[k];
    } else {
      assert more[k - |x.q.jobs|] == run[k];
      ChosenHas(more, ReplyOf, r);
    }
  }

  /** Whatever ran or waits later was waiting then, or belongs to a later call. */
  lemma OnlyThose(x: Sys, y: Sys, run: seq<PromiseJob>, more: seq<PromiseJob>, t: Ticket)
    requires AddedAfter(x, y, run, more) && About(run + y.q.jobs, t)
    ensures MaySettle(x, y, t)
  {
    hide Chosen;
    AboutConcat(x.q.jobs, more, t);
    if !About(x.q.jobs, t) {
      var i :| 0 <= i < |more| && Who(more[i]) == t;
      match more[i]
      case OwedRead(reply) => ChosenHas(more, ReplyOf, reply);
      case OwedChunk(settlement) => ChosenHas(more, ChunkOf, settlement);
      case CallAnswer(call, _) => ChosenHas(more, CallOf, call);
      case Rejection(reply) =>
        ChosenHas(more, RejectionOf, reply);
        RejectionWaited(x, y, run, more, reply);
    }
  }

  /** And all of those have settled or wait still. */
  lemma AllThose(x: Sys, y: Sys, run: seq<PromiseJob>, more: seq<PromiseJob>, t: Ticket)
    requires AddedAfter(x, y, run, more) && MaySettle(x, y, t)
    ensures Settles(run, t) || About(y.q.jobs, t)
  {
    hide Chosen;
    AboutConcat(run, y.q.jobs, t);
    AboutConcat(x.q.jobs, more, t);
    if !About(x.q.jobs, t) {
      assert Range(x.q.calls, y.q.calls)[t.call - x.q.calls] == t.call;
      ChosenHas(more, CallOf, t.call);
    }
    if About(run, t) {
      var k :| 0 <= k < |run| && Who(run[k]) == t;
      if Defers(run[k]) {
        ChosenHas(run, DeferredOf, run[k].reply);
        RejectionFollows(x, y, run, more, run[k].reply);
      }
    }
  }

  /** The rejection that a job has queued has run, or waits. */
  lemma RejectionFollows(x: Sys, y: Sys, run: seq<PromiseJob>, more: seq<PromiseJob>, r: P.Reply)
    requires AddedAfter(x, y, run, more) && r in Chosen(run, DeferredOf)
    ensures Settles(run, Whole(r.op)) || About(y.q.jobs, Whole(r.op))
  {
    hide Chosen;
    ChosenHas(more, RejectionOf, r);
    var n :| 0 <= n < |more| && RejectionOf(more[n]) == Some(r);
    assert (run + y.q.jobs)[|x.q.jobs| + n] == more[n];
    if |x.q.jobs| + n < |run| {
      assert run[|x.q.jobs| + n] == more[n];
    } else {
      assert y.q.jobs[|x.q.jobs| + n - |run|] == more[n];
    }
  }

  /**
    Exactly which promises still settle after shutdown: those whose job was
    queued by then, and those of calls made afterwards. Until its job has run
    such a promise waits; once the queue is empty all of them have settled.
  */
  lemma SettlesAfterShutdown(x: Sys, steps: seq<Step>, t: Ticket)
    requires Reached(x) && x.b.shutdown
    ensures var y := After(x, steps);
      && |x.q.ran| <= |y.q.ran|
      && var run := y.q.ran[|x.q.ran|..];
         && (Settles(run, t) || About(y.q.jobs, t) <==> MaySettle(x, y, t))
         && (y.q.jobs == [] ==> (Settles(run, t) <==> MaySettle(x, y, t)))
  {
    hide Reached, After, Chosen, MaySettle;
    var y := After(x, steps);
    AddedAfterShutdown(x, steps);
    var run, more := y.q.ran[|x.q.ran|..], Everything(y.q)[|Everything(x.q)|..];
    AboutConcat(run, y.q.jobs, t);
    if Settles(run, t) || About(y.q.jobs, t) {
      OnlyThose(x, y, run, more, t);
    }
    if MaySettle(x, y, t) {
      AllThose(x, y, run, more, t);
    }
  }

  // ------------------------------------------------------------ owed for ever

  /** A read that was promised an answer and has got none. */
  ghost predicate Owed(x: Sys, t: Ticket) {
    match t
    case Whole(op) => op in x.p.pending
    case Chunk(op, number) => op in x.s.cells && number in x.s.cells[op].queue
    case Call(_) => false
  }

  lemma {:induction false} NumbersHave(log: seq<S.Settlement>, st: S.Settlement)
    requires st in log
    ensures st.number in SL.Numbers(log, st.op)
  {
    var n := |log| - 1;
    if log[n] != st {
      NumbersHave(log[..n], st);
    }
  }

  lemma JobsAreRecorded(x: Sys, t: Ticket)
    requires JobsMatch(x) && About(Everything(x.q), t)
    ensures t.Whole? ==> exists r :: r in x.p.log && r.op == t.op
    ensures t.Chunk? ==> exists st :: st in x.s.log && st.op == t.op && st.number == t.number
  {
    hide Chosen, RepliesOk;
    var js := Everything(x.q);
    var i :| 0 <= i < |js| && Who(js[i]) == t;
    match js[i]
    case OwedRead(reply) => ChosenHas(js, ReplyOf, reply);
    case OwedChunk(settlement) => ChosenHas(js, ChunkOf, settlement);
    case CallAnswer(_, _) =>
    case Rejection(reply) =>
      ChosenHas(js, RejectionOf, reply);
      DeferredWereReplies(x.q.ran, reply);
      ChosenConcat(x.q.ran, x.q.jobs, ReplyOf);
  }

  /** An owed read has no job, now or before. */
  lemma OwedHasNoJob(x: Sys, t: Ticket)
    requires Reached(x) && !x.b.shutdown && Owed(x, t)
    ensures !About(Everything(x.q), t)
  {
    hide Reached, JobsMatch, Chosen;
    ReachedInv(x);
    ReachedMatches(x);
    if About(Everything(x.q), t) {
      RecordedIsNotOwed(x, t);
    }
  }

  lemma RecordedIsNotOwed(x: Sys, t: Ticket)
    requires Running(x, None) && JobsMatch(x) && About(Everything(x.q), t)
    ensures !Owed(x, t)
  {
    hide JobsMatch, Chosen;
    JobsAreRecorded(x, t);
    if t.Whole? {
      var r :| r in x.p.log && r.op == t.op;
      assert r.op !in x.p.pending;
    }
    if t.Chunk? {
      var st :| st in x.s.log && st.op == t.op && st.number == t.number;
      NumbersHave(x.s.log, st);
      if t.op in x.s.cells {
        SettledUnqueued(x, t.op);
      }
    }
  }

  lemma StreamLine(w: S.World, batch: seq<ChunkCompletion>, op: nat)
    requires SL.StreamInv(w, batch) && op in w.s.cells
    ensures SL.Numbers(w.s.log, op) + w.s.cells[op].queue == SL.Upto(w.s.cells[op].nextSeq)
  {
    hide SL.LiveHistory, SL.DeadHistory, SL.Upto;
    assert SL.Local(w, batch, op);
    var settled := SL.Numbers(w.s.log, op);
    assert settled + [] == settled;
  }

  lemma SettledUnqueued(x: Sys, op: nat)
    requires Running(x, None) && op in x.s.cells
    ensures forall n :: n in SL.Numbers(x.s.log, op) ==> n !in x.s.cells[op].queue
  {
    hide SL.Local, SL.StreamInv;
    var settled, queue := SL.Numbers(x.s.log, op), x.s.cells[op].queue;
    var line := SL.Upto(x.s.cells[op].nextSeq);
    StreamLine(World(x), StreamBatch(x.phase), op);
    forall i, j | 0 <= i < |settled| && 0 <= j < |queue| ensures settled[i] < queue[j] {
      assert line[i] == settled[i] && line[|settled| + j] == queue[j];
    }
  }

  /** After shutdown a promise of a read that has no job never gets one. */
  lemma JoblessNeverSettles(x: Sys, steps: seq<Step>, t: Ticket)
    requires Reached(x) && x.b.shutdown && !t.Call? && !About(Everything(x.q), t)
    ensures var y := After(x, steps);
      !About(Everything(y.q), t) && !Settles(y.q.ran, t)
  {
    hide Reached, After, Chosen, JobsMatch;
    var y := After(x, steps);
    AddedAfterShutdown(x, steps);
    var run, more := y.q.ran[|x.q.ran|..], Everything(y.q)[|Everything(x.q)|..];
    AboutConcat(x.q.ran, x.q.jobs, t);
    AboutConcat(run, y.q.jobs, t);
    if About(run + y.q.jobs, t) {
      OnlyThose(x, y, run, more, t);
    }
    AboutConcat(y.q.ran, y.q.jobs, t);
    AboutConcat(x.q.ran, run, t);
    NotAbout(x, y, run, t);
  }

  /**
    A read that is owed when the context shuts down never settles, whatever
    runs afterwards.
  */
  lemma OwedNeverSettles(x: Sys, steps: seq<Step>, t: Ticket)
    requires Reached(x) && x.phase.Idle? && !x.b.shutdown && Owed(x, t)
    ensures var y := After(Advance(x, Step.Call(ShutDown)), steps);
      !About(Everything(y.q), t) && !Settles(y.q.ran, t)
  {
    hide Reached, After, Chosen, Owed, About;
    OwedHasNoJob(x, t);
    OwedIsNoCall(x, t);
    ReachedAfter(x, [Step.Call(ShutDown)]);
    OneStep(x, Step.Call(ShutDown));
    JoblessNeverSettles(Advance(x, Step.Call(ShutDown)), steps, t);
  }

  lemma OwedIsNoCall(x: Sys, t: Ticket)
    requires Owed(x, t)
    ensures !t.Call?
  {
  }

  lemma OneStep(x: Sys, step: Step)
    ensures After(x, [step]) == Advance(x, step)
  {
    hide Advance;
    assert After(Advance(x, step), []) == Advance(x, step);
    assert [step][1..] == [];
  }

  lemma NotAbout(x: Sys, y: Sys, run: seq<PromiseJob>, t: Ticket)
    requires !t.Call? && !About(x.q.jobs, t) && !About(x.q.ran, t)
    requires y.q.ran == x.q.ran + run && !About(run, t)
    ensures !Settles(y.q.ran, t)
  {
    AboutConcat(x.q.ran, run, t);
  }

  // ---------------------------------------------------------- once, in the end

  /** Where the choices of two entries are. */
  lemma ChosenPair<T, U>(s: seq<T>, f: T -> Option<U>, i: nat, j: nat) returns (m: nat, n: nat)
    requires i < j < |s| && f(s[i]).Some? && f(s[j]).Some?
    ensures m < n < |Chosen(s, f)| && Some(Chosen(s, f)[m]) == f(s[i]) && Some(Chosen(s, f)[n]) == f(s[j])
  {
    hide Chosen;
    var front, back := s[..j], s[j..];
    assert s == front + back && front[i] == s[i] && back[0] == s[j];
    ChosenConcat(front, back, f);
    ChosenHas(front, f, f(s[i]).value);
    ChosenHas(back, f, f(s[j]).value);
    m :| 0 <= m < |Chosen(front, f)| && Chosen(front, f)[m] == f(s[i]).value;
    var k: nat :| k < |Chosen(back, f)| && Chosen(back, f)[k] == f(s[j]).value;
    n := |Chosen(front, f)| + k;
  }

  /** No promise ever gets two jobs that settle it. */
  lemma SettlesOnce(x: Sys, i: nat, j: nat)
    requires Reached(x) && i < j < |Everything(x.q)|
    requires !Defers(Everything(x.q)[i]) && !Defers(Everything(x.q)[j])
    ensures Who(Everything(x.q)[i]) != Who(Everything(x.q)[j])
  {
    hide Reached, JobsMatch;
    ReachedMatches(x);
    var a, b := Everything(x.q)[i], Everything(x.q)[j];
    if a.CallAnswer? && b.CallAnswer? {
      CallsOnce(x, i, j);
    } else if a.OwedChunk? && b.OwedChunk? {
      ChunksOnce(x, i, j);
    } else if IsReply(a) && IsReply(b) {
      ReadsOnce(x, i, j);
    }
  }

  predicate IsReply(j: PromiseJob) {
    j.OwedRead? || j.Rejection?
  }

  lemma CallsOnce(x: Sys, i: nat, j: nat)
    requires JobsMatch(x) && i < j < |Everything(x.q)|
    requires Everything(x.q)[i].CallAnswer? && Everything(x.q)[j].CallAnswer?
    ensures Everything(x.q)[i].call < Everything(x.q)[j].call
  {
    hide Chosen;
    var m, n := ChosenPair(Everything(x.q), CallOf, i, j);
  }

  /** Two settlements of one stream are at two places of its numbers. */
  lemma {:induction false} TwoNumbers(log: seq<S.Settlement>, m: nat, n: nat) returns (k: nat, l: nat)
    requires m < n < |log| && log[m].op == log[n].op
    ensures k < l < |SL.Numbers(log, log[m].op)|
    ensures SL.Numbers(log, log[m].op)[k] == log[m].number && SL.Numbers(log, log[m].op)[l] == log[n].number
  {
    var last := |log| - 1;
    var before, all := SL.Numbers(log[..last], log[m].op), SL.Numbers(log, log[m].op);
    if n < last {
      k, l := TwoNumbers(log[..last], m, n);
      assert all[k] == before[k] && all[l] == before[l];
    } else {
      assert log[..last][m] == log[m];
      NumbersHave(log[..last], log[m]);
      k :| 0 <= k < |before| && before[k] == log[m].number;
      l := |before|;
      assert all[k] == before[k] && all[l] == log[n].number;
    }
  }

  lemma ChunksOnce(x: Sys, i: nat, j: nat)
    requires JobsMatch(x) && i < j < |Everything(x.q)|
    requires Everything(x.q)[i].OwedChunk? && Everything(x.q)[j].OwedChunk?
    ensures Who(Everything(x.q)[i]) != Who(Everything(x.q)[j])
  {
    hide Chosen, RepliesOk, Consistent;
    var m, n := ChosenPair(Everything(x.q), ChunkOf, i, j);
    if x.s.log[m].op == x.s.log[n].op {
      var k, l := TwoNumbers(x.s.log, m, n);
      var numbers := SL.Numbers(x.s.log, x.s.log[m].op);
      assert numbers == SL.Upto(|numbers|);
      assert numbers[k] == k && numbers[l] == l;
    }
  }

  /** The reply that a job settles, and whether it was a worker's error. */
  lemma ReplyBehind(x: Sys, i: nat)
    requires JobsMatch(x) && i < |Everything(x.q)|
    requires IsReply(Everything(x.q)[i]) && !Defers(Everything(x.q)[i])
    ensures Everything(x.q)[i].reply in x.p.log
    ensures Everything(x.q)[i].reply.late == Everything(x.q)[i].Rejection?
  {
    hide Chosen, RepliesOk, NumbersOk;
    var js := Everything(x.q);
    if js[i].OwedRead? {
      ChosenHas(js, ReplyOf, js[i].reply);
    } else {
      ChosenHas(js, RejectionOf, js[i].reply);
      ChosenHas(x.q.ran, DeferredOf, js[i].reply);
      DeferredWereReplies(x.q.ran, js[i].reply);
      ChosenConcat(x.q.ran, x.q.jobs, ReplyOf);
    }
  }

  /** Two replies are about two reads. */
  lemma OneReply(p: P.PromiseState, a: P.Reply, b: P.Reply)
    requires RepliesOk(p) && a in p.log && b in p.log && a != b
    ensures a.op != b.op
  {
    var m :| 0 <= m < |p.log| && p.log[m] == a;
    var n :| 0 <= n < |p.log| && p.log[n] == b;
    assert P.LogIds(p.log)[m] == a.op && P.LogIds(p.log)[n] == b.op;
  }

  lemma ReadsOnce(x: Sys, i: nat, j: nat)
    requires JobsMatch(x) && i < j < |Everything(x.q)|
    requires IsReply(Everything(x.q)[i]) && IsReply(Everything(x.q)[j])
    requires !Defers(Everything(x.q)[i]) && !Defers(Everything(x.q)[j])
    ensures Everything(x.q)[i].reply.op != Everything(x.q)[j].reply.op
  {
    hide Chosen, NumbersOk, Consistent;
    var js := Everything(x.q);
    var a, b := js[i].reply, js[j].reply;
    ReplyBehind(x, i);
    ReplyBehind(x, j);
    if a.late != b.late {
      OneReply(x.p, a, b);
    } else if a.late {
      RejectionsInLine(x);
      var m, n := ChosenPair(js, RejectionOf, i, j);
      var line := Chosen(js, RejectionOf);
      assert P.LogIds(line)[m] == a.op && P.LogIds(line)[n] == b.op;
    } else {
      var m, n := ChosenPair(js, ReplyOf, i, j);
      assert P.LogIds(x.p.log)[m] == a.op && P.LogIds(x.p.log)[n] == b.op;
    }
  }

  /** Rejections are queued in submission order too. */
  lemma RejectionsInLine(x: Sys)
    requires JobsMatch(x)
    ensures Increasing(P.LogIds(Chosen(Everything(x.q), RejectionOf)))
  {
    DeferredAreLate(x.q.ran);
    ChosenConcat(x.q.ran, x.q.jobs, ReplyOf);
    var ran := Chosen(x.q.ran, ReplyOf);
    assert P.LogIds(x.p.log)[..|ran|] == P.LogIds(ran);
    PromptLine(ran);
  }

  lemma {:induction false} DeferredAreLate(js: seq<PromiseJob>)
    ensures Chosen(js, DeferredOf) == Late(Chosen(js, ReplyOf))
  {
    if js != [] {
      DeferredAreLate(js[1..]);
      ChosenFirst(js, DeferredOf);
      ChosenFirst(js, ReplyOf);
      if js[0].OwedRead? {
        Cons(js[0].reply, Chosen(js[1..], ReplyOf), {});
      }
    }
  }

  /** Every settled owed read got the exact bytes of its blob or an error. */
  lemma SettledTruthfully(x: Sys, i: nat)
    requires Reached(x) && i < |x.q.ran| && (x.q.ran[i].OwedRead? || x.q.ran[i].Rejection?) && !Defers(x.q.ran[i])
    ensures var r := x.q.ran[i].reply; r in x.p.log && P.Truthful(x.p, r.op, r.result)
  {
    hide Reached, Chosen, NumbersOk, Consistent;
    ReachedMatches(x);
    assert Everything(x.q)[i] == x.q.ran[i];
    ReplyBehind(x, i);
  }

  // ---------------------------------------------------------------- streams

  lemma {:induction false} NumbersConcat(a: seq<S.Settlement>, b: seq<S.Settlement>, op: nat)
    ensures SL.Numbers(a + b, op) == SL.Numbers(a, op) + SL.Numbers(b, op)
    ensures SL.Outs(a + b, op) == SL.Outs(a, op) + SL.Outs(b, op)
    decreases |b|
  {
    if b == [] {
      assert a + b == a;
    } else {
      var n := |b| - 1;
      assert a + b == (a + b[..n]) + [b[n]] && b == b[..n] + [b[n]];
      NumbersConcat(a, b[..n], op);
      SL.LogAppend(a + b[..n], b[n], op);
      SL.LogAppend(b[..n], b[n], op);
    }
  }

  /**
    The reads of a stream settle in the order of the `read()` calls, with the
    outcomes in the order in which they were queued.
  */
  lemma StreamSettlesInOrder(x: Sys, op: nat)
    requires Reached(x)
    ensures var settled := Chosen(x.q.ran, ChunkOf);
      && settled <= x.s.log
      && SL.Outs(settled, op) <= SL.Outs(x.s.log, op)
      && SL.Numbers(settled, op) == SL.Upto(|SL.Numbers(settled, op)|)
  {
    hide Reached, Chosen, RepliesOk, Consistent;
    ReachedMatches(x);
    var settled, waiting := Chosen(x.q.ran, ChunkOf), Chosen(x.q.jobs, ChunkOf);
    ChosenConcat(x.q.ran, x.q.jobs, ChunkOf);
    NumbersConcat(settled, waiting, op);
    var n := |SL.Numbers(settled, op)|;
    assert SL.Numbers(x.s.log, op) == SL.Upto(|SL.Numbers(x.s.log, op)|);
    assert SL.Numbers(settled, op) == SL.Numbers(x.s.log, op)[..n];
  }

  // ------------------------------------------------------------ the queue empties

  function Weight(q: Queue): nat {
    |q.jobs| + |Chosen(q.jobs, DeferredOf)|
  }

  function Engine(n: nat): seq<Step> {
    if n == 0 then [] else [RunPromiseJob] + Engine(n - 1)
  }

  /** The engine alone empties the queue, and changes nothing else. */
  lemma JobsRunDry(x: Sys) returns (n: nat)
    requires x.phase.Idle?
    ensures var y := After(x, Engine(n)); y.q.jobs == [] && y == x.(q := y.q)
    decreases Weight(x.q)
  {
    if x.q.jobs == [] {
      n := 0;
    } else {
      var x1 := x.(q := RunHead(x.q));
      Lighter(x.q);
      n := JobsRunDry(x1);
      n := n + 1;
      assert Engine(n)[1..] == Engine(n - 1);
    }
  }

  lemma Lighter(q: Queue)
    requires q.jobs != []
    ensures Weight(RunHead(q)) < Weight(q)
  {
    var j := q.jobs[0];
    var second := if Defers(j) then [Rejection(j.reply)] else [];
    ChosenFirst(q.jobs, DeferredOf);
    ChosenConcat(q.jobs[1..], second, DeferredOf);
    if second != [] {
      ChosenFirst(second, DeferredOf);
    }
  }

  // ----------------------------------------------------------------- poll_io

  /** The branches that notice a shutdown inside a drain are dead. */
  lemma DrainsSeeNoShutdown(x: Sys)
    requires Reached(x)
    requires ReaderBatch(x.phase) != [] || StreamBatch(x.phase) != [] || WholeBatch(x.phase) != []
    ensures !x.b.shutdown
  {
    hide Reached;
    ReachedInv(x);
  }
}
