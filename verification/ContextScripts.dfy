/** Scripts: whatever handlers do, the context's invariant and every suspended frame survive. */
module ContextScripts {
  import opened Common
  import opened Bridge
  import opened Context
  import opened ContextLaws
  import opened ContextSteps
  import P = Promises
  import R = Readers
  import RC = ReaderCalls
  import RF = ReaderFoot
  import RL = ReaderLaws
  import RR = ReaderRely
  import RS = ReaderSteps
  import RT = ReaderTurns
  import S = Streams

  // ----------------------------------------------------------- after shutdown

  /** No event, no result, no reply to an owed read: what a destroyed context must not see. */
  ghost predicate Frozen(x: Sys, x': Sys) {
    && x'.f.log == x.f.log && x'.f.published == x.f.published
    && x'.p.log == x.p.log && x'.p.asked == x.p.asked && x'.s.log == x.s.log
  }

  lemma StoppedAs(x: Sys, x': Sys)
    requires Stopped(x) && Frozen(x, x') && x'.f.asked == x.f.asked
    requires x'.b == x.b && x'.f.pending == x.f.pending && x'.s.ops == x.s.ops && x'.phase == x.phase
    ensures Stopped(x')
  {
  }

  lemma StoppedIs(x: Sys)
    requires Stopped(x)
    ensures Valid(x.b) && x.b.shutdown && x.f.pending == map[] && x.s.ops == map[]
  {
  }

  /** Acts of the three clients after shutdown touch no log, slot, entry or root. */
  lemma DoStoppedReaders(x: Sys, act: Act)
    requires Stopped(x) && (act.NewReader? || act.ReaderWorker?)
    ensures Stopped(Do(x, act)) && Frozen(x, Do(x, act)) && Do(x, act).phase == x.phase
  {
    hide DoPromise, DoStream, DoAbort;
    StoppedAs(x, Do(x, act));
  }

  /** A read started after shutdown fails fast, with nothing but a job that will not fire. */
  lemma DoStoppedStarts(x: Sys, act: Act)
    requires Stopped(x) && (act.StartRead? || act.StartDataUrl?)
    ensures Stopped(Do(x, act)) && Frozen(x, Do(x, act)) && Do(x, act).phase == x.phase
  {
    hide DoPromise, DoStream, DoAbort, R.Begin, Reserve, Stopped;
    StoppedIs(x);
    StoppedAs(x, Do(x, act));
  }

  lemma AbortCallStopped(m: R.Room, r: nat, now: int)
    requires m.b.shutdown && m.f.pending == map[] && r < |m.f.natives|
    ensures var (m', fr) := R.AbortCall(m, r, now);
      && fr.None? && m'.b == m.b && m'.f.pending == m.f.pending
      && m'.f.log == m.f.log && m'.f.published == m.f.published && m'.f.asked == m.f.asked
  {
  }

  lemma DoStoppedAbort(x: Sys, act: Act)
    requires Stopped(x) && act.Abort?
    ensures Stopped(Do(x, act)) && Frozen(x, Do(x, act)) && Do(x, act).phase == x.phase
  {
    if act.reader < |x.f.natives| {
      AbortCallStopped(Room(x), act.reader, act.now);
      StoppedAs(x, WithRoom(x, R.AbortCall(Room(x), act.reader, act.now).0));
    }
  }

  lemma DoStoppedOthers(x: Sys, act: Act)
    requires Stopped(x)
    requires act.ReadPromise? || act.CreateStream? || act.GetReader? || act.CancelStream? || act.PromiseWorker?
             || act.StreamWorker? || act.DropStream?
    ensures Stopped(Do(x, act)) && Frozen(x, Do(x, act)) && Do(x, act).phase == x.phase
  {
    hide DoReader, DoAbort;
    StoppedAs(x, Do(x, act));
  }

  lemma DoStoppedLocks(x: Sys, act: Act)
    requires Stopped(x) && (act.ReleaseLock? || act.DropReader?)
    ensures Stopped(Do(x, act)) && Frozen(x, Do(x, act)) && Do(x, act).phase == x.phase
  {
    hide DoPromise, DoReader, DoAbort, Stopped;
    StoppedIs(x);
    StoppedAs(x, Do(x, act));
  }

  /** These calls answer their own promise, and nothing that was owed. */
  lemma DoStoppedAnswers(x: Sys, act: Act)
    requires Stopped(x) && (act.Read? || act.CancelReader?)
    ensures Stopped(Do(x, act)) && Frozen(x, Do(x, act)) && Do(x, act).phase == x.phase
  {
    hide DoPromise, DoReader, DoAbort, Stopped, S.SubmitOrFail, S.Queued, S.CancelShared;
    StoppedIs(x);
    StoppedAs(x, Do(x, act));
  }

  /** After shutdown nothing a script does is heard. */
  lemma DoStopped(x: Sys, act: Act)
    requires Stopped(x)
    ensures Stopped(Do(x, act)) && Frozen(x, Do(x, act)) && Do(x, act).phase == x.phase
  {
    if act.ShutDown? {
    } else if act.Abort? {
      DoStoppedAbort(x, act);
    } else if act.StartRead? || act.StartDataUrl? {
      DoStoppedStarts(x, act);
    } else if act.NewReader? || act.ReaderWorker? {
      DoStoppedReaders(x, act);
    } else if act.Read? || act.CancelReader? {
      DoStoppedAnswers(x, act);
    } else if act.ReleaseLock? || act.DropReader? {
      DoStoppedLocks(x, act);
    } else {
      DoStoppedOthers(x, act);
    }
  }

  // ------------------------------------------------------------------ running

  /** The frames below a script: `G` and `B` were free when they were suspended. */
  ghost predicate Guards(x: Sys, busy: Option<nat>, G: nat, B: nat) {
    && (busy.Some? ==> busy.value < B)
    && (!x.b.shutdown ==> G <= x.f.nextGeneration && B <= x.b.next)
  }

  /** No generation below `G` fires. */
  ghost predicate OldSilent(G: nat, x: Sys, x': Sys) {
    forall h: nat :: h < G ==> RL.EventsOf(x'.f.log, h) == RL.EventsOf(x.f.log, h)
  }

  /** One act or script: the invariant holds again and suspended frames are safe. */
  ghost predicate Kept(x: Sys, x': Sys, busy: Option<nat>, G: nat, B: nat) {
    && SysInv(x', busy) && x'.phase == x.phase && OldSilent(G, x, x')
    && (x.b.shutdown ==> x'.b.shutdown && Frozen(x, x'))
    && (!x'.b.shutdown ==> RR.Rely(G, B, Room(x), Room(x')))
  }

  lemma KeptTrans(x0: Sys, x1: Sys, x2: Sys, busy: Option<nat>, G: nat, B: nat)
    requires Kept(x0, x1, busy, G, B) && Kept(x1, x2, busy, G, B)
    ensures Kept(x0, x2, busy, G, B)
  {
    if !x2.b.shutdown {
      RR.RelyTrans(G, B, Room(x0), Room(x1), Room(x2));
    }
  }

  /** What `Kept` says about ids: they only grow. */
  lemma KeptBusy(x: Sys, x': Sys, busy: Option<nat>, B: nat)
    requires Kept(x, x', busy, 0, B) && (!x.b.shutdown && busy.Some? ==> busy.value < B)
    ensures SysInv(x', busy) && x'.phase == x.phase && (x.b.shutdown ==> x'.b.shutdown)
    ensures !x'.b.shutdown && busy.Some? ==> busy.value < x'.b.next
  {
  }

  /** Steps of the other clients never touch the reader tables. */
  lemma SameReaderTables(x: Sys, x': Sys, busy: Option<nat>, G: nat, B: nat)
    requires Running(x, busy) && Running(x', busy) && Guards(x, busy, G, B)
    requires x'.f == x.f && x'.phase == x.phase && x.b.next <= x'.b.next
    ensures Kept(x, x', busy, G, B)
  {
    RR.TasksOnlyRely(G, B, Room(x), Room(x'));
  }

  /** What the reader machine's own laws say about one of its steps, for the whole context. */
  lemma RoomKept(x: Sys, m: R.Room, busy: Option<nat>, G: nat, B: nat)
    requires Running(x, busy) && Running(WithRoom(x, m), busy) && RR.Rely(G, B, Room(x), m)
    ensures Kept(x, WithRoom(x, m), busy, G, B)
  {
  }

  /** The reader machine's share of the invariant. */
  lemma RunningRoom(x: Sys, busy: Option<nat>, G: nat, B: nat)
    requires Running(x, busy) && Guards(x, busy, G, B)
    ensures RL.Live(Room(x), ReaderBatch(x.phase), busy) && G <= x.f.nextGeneration && B <= x.b.next
  {
  }

  lemma PromiseCalls(x: Sys, act: Act, busy: Option<nat>, G: nat, B: nat)
    requires Running(x, busy) && Guards(x, busy, G, B) && act.ReadPromise?
    ensures Kept(x, Do(x, act), busy, G, B)
  {
    hide DoReader, DoStream, DoAbort;
    ReadPromiseRuns(x, busy, act.blob, act.submit);
    ReadPromiseBridge(Desk(x), act.blob, act.submit);
    FootAcquire(x.b);
    SameReaderTables(x, Do(x, act), busy, G, B);
  }

  lemma PromiseWork(x: Sys, act: Act, busy: Option<nat>, G: nat, B: nat)
    requires Running(x, busy) && Guards(x, busy, G, B) && act.PromiseWorker?
    ensures Kept(x, Do(x, act), busy, G, B)
  {
    hide DoReader, DoStream, DoAbort;
    if act.i < |x.p.tasks| {
      PromiseWorkerRuns(x, busy, act.i, act.failure);
      PushWholeKeeps(x.b, WholeCompletion(x.p.tasks[act.i].op, P.WholeAnswer(x.p.tasks[act.i].blob, act.failure)));
    }
    SameReaderTables(x, Do(x, act), busy, G, B);
  }

  lemma ReaderStarts(x: Sys, act: Act, busy: Option<nat>, G: nat, B: nat)
    requires Running(x, busy) && Guards(x, busy, G, B) && act.StartRead? && act.reader < |x.f.natives|
    ensures Kept(x, Do(x, act), busy, G, B)
  {
    hide DoPromise, DoStream, DoAbort, Running, Kept, RL.Live, RR.Rely, R.StartRead;
    RunningRoom(x, busy, G, B);
    StartReadRuns(x, busy, act.reader, act.blob, act.kind, act.submit);
    RR.StartReadRely(G, B, Room(x), ReaderBatch(x.phase), busy, act.reader, act.blob, act.kind, act.submit);
    RoomKept(x, R.StartRead(Room(x), act.reader, act.blob, act.kind, act.submit).0, busy, G, B);
  }

  lemma ReaderUrls(x: Sys, act: Act, busy: Option<nat>, G: nat, B: nat)
    requires Running(x, busy) && Guards(x, busy, G, B) && act.StartDataUrl? && act.reader < |x.f.natives|
    ensures Kept(x, Do(x, act), busy, G, B)
  {
    hide DoPromise, DoStream, DoAbort, Running, Kept, RL.Live, RR.Rely, R.StartDataUrl;
    RunningRoom(x, busy, G, B);
    StartDataUrlRuns(x, busy, act.reader, act.blob, act.fits, act.submit);
    RR.StartDataUrlRely(G, B, Room(x), ReaderBatch(x.phase), busy, act.reader, act.blob, act.fits, act.submit);
    RoomKept(x, R.StartDataUrl(Room(x), act.reader, act.blob, act.fits, act.submit).0, busy, G, B);
  }

  lemma ReaderWork(x: Sys, i: nat, failure: Option<FileApiError>, busy: Option<nat>, G: nat, B: nat)
    requires Running(x, busy) && Guards(x, busy, G, B) && i < |x.f.tasks|
    requires Running(WithRoom(x, R.WorkerAnswers(Room(x), i, failure)), busy)
    ensures Kept(x, WithRoom(x, R.WorkerAnswers(Room(x), i, failure)), busy, G, B)
  {
    RR.WorkerRely(G, B, Room(x), i, failure);
  }

  lemma ReaderObjects(x: Sys, act: Act, busy: Option<nat>, G: nat, B: nat)
    requires Running(x, busy) && Guards(x, busy, G, B)
    requires act.NewReader? || (act.ReaderWorker? && act.i < |x.f.tasks|)
    ensures Kept(x, Do(x, act), busy, G, B)
  {
    hide DoPromise, DoStream, DoAbort, Running, Kept, RL.Live, RR.Rely, R.WorkerAnswers;
    RunningRoom(x, busy, G, B);
    match act
    case NewReader =>
      NewReaderRuns(x, busy);
      RR.NewReaderRely(G, B, Room(x), ReaderBatch(x.phase), busy);
      RoomKept(x, RT.NewReader(Room(x)), busy, G, B);
    case ReaderWorker(i, failure) =>
      ReaderWorkerRuns(x, busy, i, failure);
      ReaderWork(x, i, failure, busy, G, B);
  }

  lemma ReaderActs(x: Sys, act: Act, busy: Option<nat>, G: nat, B: nat)
    requires Running(x, busy) && Guards(x, busy, G, B)
    requires act.NewReader? || act.StartRead? || act.StartDataUrl? || act.ReaderWorker?
    ensures Kept(x, Do(x, act), busy, G, B)
  {
    hide Running, DoPromise, DoStream, DoAbort;
    if act.NewReader? || (act.ReaderWorker? && act.i < |x.f.tasks|) {
      ReaderObjects(x, act, busy, G, B);
    } else if act.StartRead? && act.reader < |x.f.natives| {
      ReaderStarts(x, act, busy, G, B);
    } else if act.StartDataUrl? && act.reader < |x.f.natives| {
      ReaderUrls(x, act, busy, G, B);
    } else {
      SameReaderTables(x, x, busy, G, B);
    }
  }

  predicate IsStreamCall(act: Act) {
    act.CreateStream? || act.GetReader? || act.Read? || act.CancelStream? || act.CancelReader? || act.ReleaseLock?
  }

  lemma StreamCalls(x: Sys, act: Act, busy: Option<nat>)
    requires Running(x, busy) && IsStreamCall(act) && (act.CreateStream? ==> x.phase.Idle?)
    ensures Running(Do(x, act), busy) && x.b.next <= Do(x, act).b.next
  {
    hide DoPromise, DoReader, DoAbort, Running, S.CreateStream, S.GetReader, S.StreamCancel, S.ReaderCancel,
         S.ReleaseLock, ReadingStream, Cancelling;
    match act
    case CreateStream(blob, mode) => CreateStreamRuns(x, busy, blob, mode);
    case GetReader(op) => GetReaderRuns(x, busy, op);
    case Read(lock, submit) => if lock < |x.s.readers| { ReadRuns(x, busy, lock, submit); }
    case CancelStream(op) =>
      CancelStreamRuns(x, busy, op);
      CancelAnswers(x, busy, S.StreamCancel(World(x), op).0, S.StreamCancel(World(x), op).1);
    case CancelReader(lock) =>
      if lock < |x.s.readers| {
        CancelReaderRuns(x, busy, lock);
        CancelAnswers(x, busy, S.ReaderCancel(World(x), lock).0, S.ReaderCancel(World(x), lock).1);
      }
    case ReleaseLock(lock) => if lock < |x.s.readers| { ReleaseLockRuns(x, busy, lock); }
  }

  lemma StreamAnswers(x: Sys, act: Act, busy: Option<nat>)
    requires Running(x, busy) && act.StreamWorker?
    ensures Running(Do(x, act), busy) && x.b.next <= Do(x, act).b.next
  {
    if act.i < |x.s.tasks| && x.s.tasks[act.i].op in x.s.cells {
      StreamWorkerRuns(x, busy, act.i, act.failure);
    }
  }

  lemma StreamDrops(x: Sys, act: Act, busy: Option<nat>)
    requires Running(x, busy) && (act.DropStream? || act.DropReader?)
    ensures Running(Do(x, act), busy) && x.b.next <= Do(x, act).b.next
  {
    hide DoPromise, DoReader, DoAbort, Running, S.DropStream, S.DropReader;
    match act
    case DropStream(op) => DropStreamRuns(x, busy, op);
    case DropReader(lock) => if lock < |x.s.readers| { DropReaderRuns(x, busy, lock); }
  }

  lemma StreamsOnly(x: Sys, act: Act)
    requires IsStreamCall(act) || act.StreamWorker? || act.DropStream? || act.DropReader?
    ensures Do(x, act).f == x.f && Do(x, act).phase == x.phase
  {
  }

  lemma StreamActs(x: Sys, act: Act, busy: Option<nat>, G: nat, B: nat)
    requires Running(x, busy) && Guards(x, busy, G, B) && (act.CreateStream? ==> x.phase.Idle?)
    requires IsStreamCall(act) || act.StreamWorker? || act.DropStream? || act.DropReader?
    ensures Kept(x, Do(x, act), busy, G, B)
  {
    if IsStreamCall(act) {
      StreamCalls(x, act, busy);
    } else if act.StreamWorker? {
      StreamAnswers(x, act, busy);
    } else {
      StreamDrops(x, act, busy);
    }
    StreamsOnly(x, act);
    SameReaderTables(x, Do(x, act), busy, G, B);
  }

  /** Shutdown leaves nothing held and every trace as far as it came. */
  lemma ShutDownKept(x: Sys, busy: Option<nat>, G: nat, B: nat)
    requires Running(x, busy) && x.phase.Idle?
    ensures Kept(x, ShutDownAll(x), busy, G, B)
  {
    forall g ensures !RL.PhaseOf(x.f.log, g).Broken? {
      assert RL.GenLocal(Room(x), g);
    }
  }

  // ------------------------------------------------------------------ aborting

  lemma AbortBegins(x: Sys, r: nat, now: int, busy: Option<nat>, G: nat, B: nat)
    requires Running(x, busy) && Guards(x, busy, G, B) && r < |x.f.natives|
    ensures var (m, fr) := R.AbortCall(Room(x), r, now);
      && Kept(x, WithRoom(x, m), busy, G, B)
      && (fr.Some? ==>
            && RS.FrameOk(m, fr.value) && fr.value.pause.AfterAbort? && !m.b.shutdown
            && G <= fr.value.generation < m.f.nextGeneration && fr.value.op < m.b.next && fr.value.reader < |m.f.natives|)
  {
    hide Kept, RR.Rely;
    var (m, fr) := R.AbortCall(Room(x), r, now);
    RC.AbortKeeps(Room(x), ReaderBatch(x.phase), busy, r, now);
    RF.AbortFoot(Room(x), r, now);
    RF.AbortParts(Room(x), r, now);
    RoomWithin(x, busy, m, busy, x.phase, RF.AbortOp(Room(x), r));
    RR.AbortRely(G, B, Room(x), ReaderBatch(x.phase), busy, r, now);
    RoomKept(x, m, busy, G, B);
  }

  /** Between `abort` and `loadend`, on a running context. */
  lemma AbortGoesOn(x: Sys, fr: R.Frame, busy: Option<nat>, G: nat, B: nat)
    requires Running(x, busy) && Guards(x, busy, G, B) && fr.pause.AfterAbort? && G <= fr.generation
    requires RS.FrameOk(Room(x), fr)
    ensures Kept(x, WithRoom(x, AbortRest(x, fr).0), busy, G, B)
  {
    var m := AbortRest(x, fr).0;
    RC.ResumeAbortKeeps(Room(x), ReaderBatch(x.phase), busy, fr.reader, fr.generation, fr.now,
                        fr.pause.loaded, fr.pause.total);
    RF.WithinSame(Room(x), m, 0);
    RoomWithin(x, busy, m, busy, x.phase, 0);
    RR.ResumeAbortRely(G, B, Room(x), fr.reader, fr.generation, fr.now, fr.pause.loaded, fr.pause.total);
  }

  lemma AbortStopped(x: Sys, fr: R.Frame, busy: Option<nat>, G: nat, B: nat)
    requires Stopped(x) && fr.pause.AfterAbort?
    ensures Kept(x, WithRoom(x, AbortRest(x, fr).0), busy, G, B) && AbortRest(x, fr).1.None?
  {
    StoppedAs(x, WithRoom(x, AbortRest(x, fr).0));
  }

  /** Acts without handlers of their own, on a running context. */
  lemma PlainActs(x: Sys, act: Act, busy: Option<nat>, G: nat, B: nat)
    requires Running(x, busy) && Guards(x, busy, G, B) && (x.phase.Idle? || IsEnvironment(act))
    requires !act.Abort? && !act.ShutDown?
    ensures Kept(x, Do(x, act), busy, G, B)
  {
    hide Do, Running, Guards, Kept;
    if act.ReadPromise? {
      PromiseCalls(x, act, busy, G, B);
    } else if act.PromiseWorker? {
      PromiseWork(x, act, busy, G, B);
    } else if act.NewReader? || act.StartRead? || act.StartDataUrl? || act.ReaderWorker? {
      ReaderActs(x, act, busy, G, B);
    } else {
      StreamActs(x, act, busy, G, B);
    }
  }

  /** The handlers of `abort` have run: on to `loadend`, or not. */
  lemma AbortMiddle(x1: Sys, x2: Sys, fr: R.Frame, busy: Option<nat>, G: nat, B: nat)
    requires Running(x1, busy) && !x1.b.shutdown && RS.FrameOk(Room(x1), fr) && fr.pause.AfterAbort?
    requires G <= fr.generation < x1.f.nextGeneration && fr.op < x1.b.next && fr.reader < |x1.f.natives|
    requires Kept(x1, x2, busy, x1.f.nextGeneration, x1.b.next) && Guards(x2, busy, G, B)
    ensures Kept(x2, WithRoom(x2, AbortRest(x2, fr).0), busy, G, B)
  {
    if x2.b.shutdown {
      AbortStopped(x2, fr, busy, G, B);
    } else {
      RR.FrameRely(x1.f.nextGeneration, x1.b.next, Room(x1), Room(x2), fr);
      AbortGoesOn(x2, fr, busy, G, B);
    }
  }

  /** One act, with the scripts inside it. */
  lemma DoKeeps(x: Sys, act: Act, busy: Option<nat>, G: nat, B: nat)
    requires SysInv(x, busy) && Guards(x, busy, G, B) && (x.phase.Idle? || IsEnvironment(act))
    ensures Kept(x, Do(x, act), busy, G, B)
    decreases act, 1
  {
    hide DoPromise, DoReader, DoStream, RunScript, DoAbort, Running;
    if x.b.shutdown {
      DoStopped(x, act);
    } else if act.ShutDown? {
      ShutDownKept(x, busy, G, B);
    } else if !act.Abort? {
      PlainActs(x, act, busy, G, B);
    } else if act.reader < |x.f.natives| {
      AbortRuns(x, act.reader, act.now, act.onAbort, act.onLoadend, busy, G, B);
    } else {
      SameReaderTables(x, x, busy, G, B);
    }
  }

  /** `abort` and its handlers. */
  lemma AbortFirst(x: Sys, x1: Sys, fr: R.Frame, onAbort: Script, busy: Option<nat>, G: nat, B: nat)
    requires Running(x, busy) && !x.b.shutdown && Guards(x, busy, G, B) && x.phase.Idle?
    requires Kept(x, x1, busy, G, B) && !x1.b.shutdown && RS.FrameOk(Room(x1), fr) && fr.pause.AfterAbort?
    requires G <= fr.generation < x1.f.nextGeneration && fr.op < x1.b.next && fr.reader < |x1.f.natives|
    ensures var x2 := RunScript(x1, onAbort);
      Kept(x, x2, busy, G, B) && Kept(x2, WithRoom(x2, AbortRest(x2, fr).0), busy, G, B)
    decreases onAbort, 3
  {
    hide RunScript, Running, RS.FrameOk;
    var x2 := RunScript(x1, onAbort);
    ScriptKeeps(x1, onAbort, busy, G, B);
    ScriptKeeps(x1, onAbort, busy, x1.f.nextGeneration, x1.b.next);
    AbortMiddle(x1, x2, fr, busy, G, B);
    KeptTrans(x, x1, x2, busy, G, B);
  }

  lemma AbortRuns(x: Sys, r: nat, now: int, onAbort: Script, onLoadend: Script, busy: Option<nat>, G: nat, B: nat)
    requires Running(x, busy) && !x.b.shutdown && Guards(x, busy, G, B) && x.phase.Idle? && r < |x.f.natives|
    ensures Kept(x, DoAbort(x, r, now, onAbort, onLoadend), busy, G, B)
    decreases Abort(r, now, onAbort, onLoadend), 0
  {
    hide R.AbortCall, RunScript, Kept, Running, Guards;
    var (m1, fr) := R.AbortCall(Room(x), r, now);
    var x1 := WithRoom(x, m1);
    AbortBegins(x, r, now, busy, G, B);
    if fr.Some? {
      var x2 := RunScript(x1, onAbort);
      var x3 := WithRoom(x2, AbortRest(x2, fr.value).0);
      AbortFirst(x, x1, fr.value, onAbort, busy, G, B);
      AbortLast(x, x2, x3, onLoadend, busy, G, B);
    }
  }

  /** `loadend` and its handlers. */
  lemma AbortLast(x: Sys, x2: Sys, x3: Sys, onLoadend: Script, busy: Option<nat>, G: nat, B: nat)
    requires Guards(x, busy, G, B) && x.phase.Idle? && !x.b.shutdown
    requires Kept(x, x2, busy, G, B) && Kept(x2, x3, busy, G, B)
    ensures Kept(x, x3, busy, G, B) && Kept(x, RunScript(x3, onLoadend), busy, G, B)
    decreases onLoadend, 3
  {
    hide RunScript, Running;
    KeptTrans(x, x2, x3, busy, G, B);
    ScriptKeeps(x3, onLoadend, busy, G, B);
    KeptTrans(x, x3, RunScript(x3, onLoadend), busy, G, B);
  }

  /** Any script at all. */
  lemma ScriptKeeps(x: Sys, script: Script, busy: Option<nat>, G: nat, B: nat)
    requires SysInv(x, busy) && Guards(x, busy, G, B) && x.phase.Idle?
    ensures Kept(x, RunScript(x, script), busy, G, B)
    decreases script, 2
  {
    hide Do;
    match script
    case Stop =>
      if !x.b.shutdown {
        SameReaderTables(x, x, busy, G, B);
      }
    case Then(act, rest) =>
      DoKeeps(x, act, busy, G, B);
      ScriptKeeps(Do(x, act), rest, busy, G, B);
      KeptTrans(x, Do(x, act), RunScript(Do(x, act), rest), busy, G, B);
  }
}
