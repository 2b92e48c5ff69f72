/**
  What one step of a context does to its promise jobs: public calls, jobs and
  polls only add to the queue, in step with what their clients record.
*/
module JobSteps {
  import opened Common
  import opened Bridge
  import opened Context
  import opened ContextLaws
  import opened ContextScripts
  import opened ContextRuns
  import opened Jobs
  import CS = ContextSteps
  import P = Promises
  import R = Readers
  import RM = ReaderMoves
  import RS = ReaderSteps
  import S = Streams
  import SR = StreamResults
  import SG = StreamGrowth
  import SL = StreamLaws

  function Range(lo: nat, hi: nat): seq<nat>
    requires lo <= hi
  {
    seq(hi - lo, i requires 0 <= i < hi - lo => lo + i)
  }

  /** From `x` to `x'` exactly the jobs `more` were queued, and the clients recorded just that. */
  ghost predicate Adds(x: Sys, x': Sys, more: seq<PromiseJob>) {
    && x'.q.ran == x.q.ran && x'.q.jobs == x.q.jobs + more && x.q.calls <= x'.q.calls
    && Chosen(more, RejectionOf) == []
    && Chosen(more, CallOf) == Range(x.q.calls, x'.q.calls)
    && x'.p.log == x.p.log + Chosen(more, ReplyOf)
    && x'.s.log == x.s.log + Chosen(more, ChunkOf)
  }

  /** Replies are in submission order, and each is the content of its blob or an error. */
  ghost predicate RepliesOk(p: P.PromiseState) {
    && Increasing(P.LogIds(p.log))
    && forall i :: 0 <= i < |p.log| ==> P.Truthful(p, p.log[i].op, p.log[i].result)
  }

  /** The reads of every stream were settled in the order of their numbers. */
  ghost predicate NumbersOk(s: S.StreamState) {
    forall op :: SL.Numbers(s.log, op) == SL.Upto(|SL.Numbers(s.log, op)|)
  }

  /** A step that runs no promise job. */
  ghost predicate Onward(x: Sys, x': Sys) {
    && (exists more :: Adds(x, x', more))
    && SG.Grew(x.s, x'.s)
    && (RepliesOk(x.p) ==> RepliesOk(x'.p))
    && (NumbersOk(x.s) ==> NumbersOk(x'.s))
  }

  lemma AddsTrans(x: Sys, y: Sys, z: Sys, a: seq<PromiseJob>, b: seq<PromiseJob>)
    requires Adds(x, y, a) && Adds(y, z, b)
    ensures Adds(x, z, a + b)
  {
    hide Chosen;
    ChosenConcat(a, b, RejectionOf);
    ChosenConcat(a, b, CallOf);
    ChosenConcat(a, b, ReplyOf);
    ChosenConcat(a, b, ChunkOf);
    assert Range(x.q.calls, y.q.calls) + Range(y.q.calls, z.q.calls) == Range(x.q.calls, z.q.calls);
    assert x.q.jobs + a + b == x.q.jobs + (a + b);
    assert x.p.log + Chosen(a, ReplyOf) + Chosen(b, ReplyOf) == x.p.log + (Chosen(a, ReplyOf) + Chosen(b, ReplyOf));
    assert x.s.log + Chosen(a, ChunkOf) + Chosen(b, ChunkOf) == x.s.log + (Chosen(a, ChunkOf) + Chosen(b, ChunkOf));
  }

  lemma OnwardTrans(x: Sys, y: Sys, z: Sys)
    requires Onward(x, y) && Onward(y, z)
    ensures Onward(x, z)
  {
    hide Adds, SG.Grew, RepliesOk, NumbersOk;
    var a :| Adds(x, y, a);
    var b :| Adds(y, z, b);
    AddsTrans(x, y, z, a, b);
    SG.GrewTrans(x.s, y.s, z.s);
  }

  // ---------------------------------------------------------------- elementary

  lemma {:induction false} ReadJobsAre(replies: seq<P.Reply>)
    ensures var js := ReadJobs(replies);
      Chosen(js, ReplyOf) == replies && Chosen(js, RejectionOf) == [] && Chosen(js, ChunkOf) == [] && Chosen(js, CallOf) == []
  {
    if replies != [] {
      var js := ReadJobs(replies);
      ReadJobsAre(replies[1..]);
      assert js[1..] == ReadJobs(replies[1..]);
      ChosenFirst(js, ReplyOf);
      ChosenFirst(js, RejectionOf);
      ChosenFirst(js, ChunkOf);
      ChosenFirst(js, CallOf);
    }
  }

  lemma {:induction false} ChunkJobsAre(settlements: seq<S.Settlement>)
    ensures var js := ChunkJobs(settlements);
      Chosen(js, ChunkOf) == settlements && Chosen(js, RejectionOf) == [] && Chosen(js, ReplyOf) == [] && Chosen(js, CallOf) == []
  {
    if settlements != [] {
      var js := ChunkJobs(settlements);
      ChunkJobsAre(settlements[1..]);
      assert js[1..] == ChunkJobs(settlements[1..]);
      ChosenFirst(js, ReplyOf);
      ChosenFirst(js, RejectionOf);
      ChosenFirst(js, ChunkOf);
      ChosenFirst(js, CallOf);
    }
  }

  lemma AnswerIs(call: nat, answer: Answer)
    ensures var js := [CallAnswer(call, answer)];
      Chosen(js, CallOf) == [call] && Chosen(js, RejectionOf) == [] && Chosen(js, ReplyOf) == [] && Chosen(js, ChunkOf) == []
  {
    var js := [CallAnswer(call, answer)];
    ChosenFirst(js, ReplyOf);
    ChosenFirst(js, RejectionOf);
    ChosenFirst(js, ChunkOf);
    ChosenFirst(js, CallOf);
  }

  lemma NothingAdded(x: Sys, x': Sys)
    requires x'.q == x.q && x'.p.log == x.p.log && x'.s == x.s && (RepliesOk(x.p) ==> RepliesOk(x'.p))
    ensures Onward(x, x')
  {
    hide RepliesOk, NumbersOk;
    ChosenNone<PromiseJob, P.Reply>(ReplyOf);
    ChosenNone<PromiseJob, P.Reply>(RejectionOf);
    ChosenNone<PromiseJob, S.Settlement>(ChunkOf);
    ChosenNone<PromiseJob, nat>(CallOf);
    assert Adds(x, x', []);
    SG.Unchanged(x.s);
  }

  lemma RoomOnward(x: Sys, m: R.Room)
    ensures Onward(x, WithRoom(x, m))
  {
    hide RepliesOk, Onward;
    NothingAdded(x, WithRoom(x, m));
  }

  lemma DeskOnward(x: Sys, d: P.Desk)
    requires x.p.log <= d.p.log && (RepliesOk(x.p) ==> RepliesOk(d.p))
    ensures Onward(x, WithDesk(x, d))
  {
    hide RepliesOk, Chosen, NumbersOk;
    var gained := Gained(x.p.log, d.p.log);
    ReadJobsAre(gained);
    assert d.p.log == x.p.log + gained;
    assert Adds(x, WithDesk(x, d), ReadJobs(gained));
    SG.Unchanged(x.s);
  }

  lemma WorldOnward(x: Sys, w: S.World)
    requires SG.Grew(x.s, w.s) && (NumbersOk(x.s) ==> NumbersOk(w.s))
    ensures Onward(x, WithWorld(x, w))
  {
    hide RepliesOk, Chosen, NumbersOk;
    var gained := Gained(x.s.log, w.s.log);
    ChunkJobsAre(gained);
    assert w.s.log == x.s.log + gained;
    assert Adds(x, WithWorld(x, w), ChunkJobs(gained));
  }

  lemma AnswerOnward(x: Sys, answer: Answer)
    ensures Onward(x, Answering(x, answer))
  {
    hide RepliesOk, Chosen, NumbersOk;
    AnswerIs(x.q.calls, answer);
    assert Adds(x, Answering(x, answer), [CallAnswer(x.q.calls, answer)]);
    SG.Unchanged(x.s);
  }

  // -------------------------------------------------------------- public calls

  /** What keeps replies as they are, in a running or a stopped context. */
  lemma RunningReplies(x: Sys, busy: Option<nat>)
    requires Running(x, busy)
    ensures RepliesOk(x.p)
  {
    var ids, rest := P.LogIds(x.p.log), P.BatchIds(WholeBatch(x.phase));
    forall i, j | 0 <= i < j < |ids| ensures ids[i] < ids[j] {
      assert (ids + rest)[i] == ids[i] && (ids + rest)[j] == ids[j];
    }
  }

  lemma SameReplies(p: P.PromiseState, p': P.PromiseState)
    requires p'.log == p.log && p'.asked == p.asked
    ensures RepliesOk(p) ==> RepliesOk(p')
  {
  }

  lemma ReadPromiseOnward(x: Sys, blob: seq<Byte>, submit: Option<SubmitError>, busy: Option<nat>)
    requires SysInv(x, busy)
    ensures Onward(x, ReadingPromise(x, blob, submit))
  {
    hide RepliesOk, Onward, Running, Stopped, P.ReadPromise, NumbersOk;
    var (d, r) := P.ReadPromise(Desk(x), blob, submit);
    ReadPromiseLog(Desk(x), blob, submit);
    if x.b.shutdown {
      StoppedIs(x);
      SameReplies(x.p, d.p);
    } else {
      ReadPromiseReplies(x, blob, submit, busy);
    }
    DeskOnward(x, d);
    if r.RejectedNow? {
      AnswerOnward(WithDesk(x, d), ReadRefused(r.error));
      OnwardTrans(x, WithDesk(x, d), ReadingPromise(x, blob, submit));
    }
  }

  lemma ReadPromiseLog(d: P.Desk, blob: seq<Byte>, submit: Option<SubmitError>)
    ensures P.ReadPromise(d, blob, submit).0.p.log == d.p.log
    ensures d.b.shutdown ==> P.ReadPromise(d, blob, submit).0.p == d.p
  {
  }

  lemma ReadPromiseReplies(x: Sys, blob: seq<Byte>, submit: Option<SubmitError>, busy: Option<nat>)
    requires Running(x, busy)
    ensures RepliesOk(P.ReadPromise(Desk(x), blob, submit).0.p)
  {
    hide Running, RepliesOk, P.ReadPromise;
    CS.ReadPromiseRuns(x, busy, blob, submit);
    RunningReplies(WithDesk(x, P.ReadPromise(Desk(x), blob, submit).0), busy);
  }

  lemma PromiseActOnward(x: Sys, act: Act, busy: Option<nat>)
    requires SysInv(x, busy) && IsPromiseAct(act)
    ensures Onward(x, DoPromise(x, act))
  {
    hide RepliesOk, Onward, SysInv, ReadingPromise;
    if act.ReadPromise? {
      ReadPromiseOnward(x, act.blob, act.submit, busy);
    } else if act.i < |x.p.tasks| {
      var d := P.WorkerAnswers(Desk(x), act.i, act.failure);
      SameReplies(x.p, d.p);
      DeskOnward(x, d);
    } else {
      NothingAdded(x, x);
    }
  }

  lemma ReaderActOnward(x: Sys, act: Act)
    requires IsReaderAct(act)
    ensures Onward(x, DoReader(x, act))
  {
    hide RepliesOk, Onward, R.StartRead, R.StartDataUrl, R.WorkerAnswers;
    NothingAdded(x, DoReader(x, act));
  }

  /** A new stream's number is nobody's yet. */
  lemma CreateGrew(x: Sys, blob: seq<Byte>, mode: S.Mode, busy: Option<nat>)
    requires SysInv(x, busy)
    ensures SG.Grew(x.s, S.CreateStream(World(x), blob, mode).0.s)
  {
    hide SG.Grew;
    if x.b.shutdown {
      SG.Unchanged(x.s);
    } else {
      assert SL.Local(World(x), StreamBatch(x.phase), x.b.next);
      SG.CreateStreamGrew(World(x), blob, mode);
    }
  }

  lemma ReadOnward(x: Sys, lock: nat, submit: Option<SubmitError>)
    requires lock < |x.s.readers| && (NumbersOk(x.s) ==> NumbersOk(ReadingStream(x, lock, submit).s))
    ensures Onward(x, ReadingStream(x, lock, submit))
  {
    hide RepliesOk, Onward, SG.Grew, S.ReaderRead, NumbersOk;
    var (w, r) := S.ReaderRead(World(x), lock, submit);
    SG.ReaderReadGrew(World(x), lock, submit);
    WorldOnward(x, w);
    if r.Immediate? {
      AnswerOnward(WithWorld(x, w), StreamAnswered(r.outcome));
      OnwardTrans(x, WithWorld(x, w), ReadingStream(x, lock, submit));
    }
  }

  lemma CancelOnward(x: Sys, w: S.World, r: S.CancelResult)
    requires SG.Grew(x.s, w.s) && (NumbersOk(x.s) ==> NumbersOk(w.s))
    ensures Onward(x, Cancelling(x, w, r))
  {
    hide RepliesOk, Onward, SG.Grew, NumbersOk;
    WorldOnward(x, w);
    if !r.CancelReleased? {
      AnswerOnward(WithWorld(x, w), CancelAnswered(r.CancelDone?));
      OnwardTrans(x, WithWorld(x, w), Cancelling(x, w, r));
    }
  }

  lemma RunningNumbers(x: Sys, busy: Option<nat>)
    requires Running(x, busy)
    ensures NumbersOk(x.s)
  {
    hide SL.StreamInv;
    forall op ensures SL.Numbers(x.s.log, op) == SL.Upto(|SL.Numbers(x.s.log, op)|) {
      SR.ReadsSettleInOrder(World(x), StreamBatch(x.phase), op);
    }
  }

  lemma SameNumbers(s: S.StreamState, s': S.StreamState)
    requires s'.log == s.log
    ensures NumbersOk(s) ==> NumbersOk(s')
  {
  }

  lemma StreamCallNumbers(x: Sys, act: Act, busy: Option<nat>)
    requires SysInv(x, busy) && IsStreamCall(act) && (act.CreateStream? ==> x.phase.Idle?)
    ensures NumbersOk(x.s) ==> NumbersOk(DoStream(x, act).s)
  {
    hide Running, Stopped, NumbersOk, DoStream, DoPromise, DoReader, DoAbort;
    if x.b.shutdown {
      DoStopped(x, act);
      SameNumbers(x.s, Do(x, act).s);
    } else {
      StreamCalls(x, act, busy);
      RunningNumbers(Do(x, act), busy);
    }
  }

  lemma StreamCallOnward(x: Sys, act: Act, busy: Option<nat>)
    requires SysInv(x, busy) && IsStreamCall(act) && (act.CreateStream? ==> x.phase.Idle?)
    ensures Onward(x, DoStream(x, act))
  {
    hide RepliesOk, Onward, SysInv, SG.Grew, S.CreateStream, S.GetReader, ReadingStream, S.StreamCancel, S.ReaderCancel,
         S.ReleaseLock, NumbersOk;
    NothingAdded(x, x);
    StreamCallNumbers(x, act, busy);
    match act
    case CreateStream(blob, mode) =>
      CreateGrew(x, blob, mode, busy);
      WorldOnward(x, S.CreateStream(World(x), blob, mode).0);
    case GetReader(op) =>
      SG.GetReaderGrew(World(x), op);
      WorldOnward(x, S.GetReader(World(x), op).0);
    case Read(lock, submit) => if lock < |x.s.readers| { ReadOnward(x, lock, submit); }
    case CancelStream(op) =>
      if op in x.s.cells {
        SG.CancelGrew(World(x), op);
        CancelOnward(x, S.StreamCancel(World(x), op).0, S.StreamCancel(World(x), op).1);
      }
    case CancelReader(lock) =>
      if lock < |x.s.readers| {
        SG.ReaderCancelGrew(World(x), lock);
        CancelOnward(x, S.ReaderCancel(World(x), lock).0, S.ReaderCancel(World(x), lock).1);
      }
    case ReleaseLock(lock) =>
      if lock < |x.s.readers| {
        SG.ReleaseLockGrew(World(x), lock);
        WorldOnward(x, S.ReleaseLock(World(x), lock).0);
      }
  }

  lemma StreamEventOnward(x: Sys, act: Act)
    requires act.StreamWorker? || act.DropStream? || act.DropReader?
    ensures Onward(x, DoStream(x, act))
  {
    hide RepliesOk, Onward, SG.Grew, NumbersOk;
    NothingAdded(x, x);
    match act
    case StreamWorker(i, failure) =>
      if i < |x.s.tasks| && x.s.tasks[i].op in x.s.cells {
        SG.WorkerGrew(World(x), i, failure);
        SameNumbers(x.s, S.WorkerAnswers(World(x), i, failure).s);
        WorldOnward(x, S.WorkerAnswers(World(x), i, failure));
      }
    case DropStream(op) =>
      SG.DropStreamGrew(World(x), op);
      SameNumbers(x.s, S.DropStream(World(x), op).s);
      WorldOnward(x, S.DropStream(World(x), op));
    case DropReader(lock) =>
      if lock < |x.s.readers| {
        SG.DropReaderGrew(World(x), lock);
        SameNumbers(x.s, S.DropReader(World(x), lock).s);
        WorldOnward(x, S.DropReader(World(x), lock));
      }
  }

  lemma ShutDownOnward(x: Sys)
    ensures Onward(x, ShutDownAll(x))
  {
    hide RepliesOk, Onward, Bridge.ShutDown, R.ShutDownReaders, NumbersOk;
    var w := S.World(x.b, S.ShutDownStreams(x.s));
    SameNumbers(x.s, w.s);
    SG.ShutDownGrew(x.s);
    WorldOnward(x, w);
    assert Gained(x.s.log, w.s.log) == [];
    assert x.q.jobs + ChunkJobs([]) == x.q.jobs;
    SameOnward(x, WithWorld(x, w), ShutDownAll(x));
  }

  lemma SameOnward(x: Sys, y: Sys, z: Sys)
    requires Onward(x, y) && z.q == y.q && z.p == y.p && z.s == y.s
    ensures Onward(x, z)
  {
    hide SG.Grew, RepliesOk, Chosen, NumbersOk;
    var more :| Adds(x, y, more);
    assert Adds(x, z, more);
  }

  /** Everything but `abort()`. */
  lemma PlainOnward(x: Sys, act: Act, busy: Option<nat>)
    requires SysInv(x, busy) && !act.Abort? && (x.phase.Idle? || IsEnvironment(act))
    ensures Onward(x, Do(x, act))
  {
    hide SysInv, Onward, DoPromise, DoReader, DoStream, ShutDownAll;
    if IsPromiseAct(act) {
      PromiseActOnward(x, act, busy);
    } else if IsReaderAct(act) {
      ReaderActOnward(x, act);
    } else if act.ShutDown? {
      ShutDownOnward(x);
    } else if IsStreamCall(act) {
      StreamCallOnward(x, act, busy);
    } else {
      StreamEventOnward(x, act);
    }
  }

  lemma DoOnward(x: Sys, act: Act, busy: Option<nat>)
    requires SysInv(x, busy) && (x.phase.Idle? || IsEnvironment(act))
    requires !x.b.shutdown && busy.Some? ==> busy.value < x.b.next
    ensures Onward(x, Do(x, act))
    decreases act, 1
  {
    hide SysInv, Onward, DoPromise, DoReader, DoStream, ShutDownAll, DoAbort, RepliesOk;
    if !act.Abort? {
      PlainOnward(x, act, busy);
    } else if act.reader < |x.f.natives| {
      AbortOnward(x, act.reader, act.now, act.onAbort, act.onLoadend, busy);
    } else {
      NothingAdded(x, x);
    }
  }

  lemma AbortOnward(x: Sys, r: nat, now: int, onAbort: Script, onLoadend: Script, busy: Option<nat>)
    requires SysInv(x, busy) && x.phase.Idle? && r < |x.f.natives|
    requires !x.b.shutdown && busy.Some? ==> busy.value < x.b.next
    ensures Onward(x, DoAbort(x, r, now, onAbort, onLoadend))
    decreases Abort(r, now, onAbort, onLoadend), 0
  {
    hide RunScript, AbortRest, Running, R.AbortCall, Onward;
    var (m1, fr) := R.AbortCall(Room(x), r, now);
    var x1 := WithRoom(x, m1);
    RoomOnward(x, m1);
    if x.b.shutdown {
      AbortCallStopped(Room(x), r, now);
    } else {
      var B := if busy.Some? then busy.value + 1 else 0;
      AbortBegins(x, r, now, busy, 0, B);
      KeptBusy(x, x1, busy, B);
      if fr.Some? {
        var x2 := RunScript(x1, onAbort);
        var (m3, last) := AbortRest(x2, fr.value);
        var x3 := WithRoom(x2, m3);
        ScriptOnward(x1, onAbort, busy);
        AbortFirst(x, x1, fr.value, onAbort, busy, 0, B);
        KeptTrans(x, x2, x3, busy, 0, B);
        KeptBusy(x, x3, busy, B);
        RoomOnward(x2, m3);
        OnwardTrans(x, x1, x2);
        OnwardTrans(x, x2, x3);
        if last.Some? {
          ScriptOnward(x3, onLoadend, busy);
          OnwardTrans(x, x3, RunScript(x3, onLoadend));
        }
      }
    }
  }

  lemma ScriptOnward(x: Sys, script: Script, busy: Option<nat>)
    requires SysInv(x, busy) && x.phase.Idle?
    requires !x.b.shutdown && busy.Some? ==> busy.value < x.b.next
    ensures Onward(x, RunScript(x, script))
    decreases script, 2
  {
    hide Do, Onward, SysInv, RepliesOk;
    match script
    case Stop => NothingAdded(x, x);
    case Then(act, rest) =>
      var B := if busy.Some? then busy.value + 1 else 0;
      DoOnward(x, act, busy);
      DoKeeps(x, act, busy, 0, B);
      KeptBusy(x, Do(x, act), busy, B);
      ScriptOnward(Do(x, act), rest, busy);
      OnwardTrans(x, Do(x, act), RunScript(x, script));
  }

  // ----------------------------------------------------------- jobs and polls

  /** A FileReading job queues promise jobs only through its handlers. */
  lemma JobOnward(x: Sys, now: int, submit: Option<SubmitError>, packError: Option<FileApiError>, handlers: Script)
    requires SysInv(x, None) && x.phase.Idle? && x.f.jobs != []
    ensures Onward(x, Job(x, now, submit, packError, handlers))
  {
    hide Running, Onward, R.JobEnter, R.Resume, RunScript, RS.FrameOk;
    var (m, fr) := R.JobEnter(RM.JobPopped(Room(x)), x.f.jobs[0], now, submit, packError);
    var x1 := WithRoom(x, m);
    RoomOnward(x, m);
    if fr.Some? {
      if x.b.shutdown {
        EnterStopped(x, now, submit, packError);
      } else {
        JobStarts(x, now, submit, packError);
        RunningIsOpen(x1, RS.BusyOf(fr));
        ScriptOnward(x1, handlers, RS.BusyOf(fr));
        RoomOnward(RunScript(x1, handlers), R.Resume(Room(RunScript(x1, handlers)), fr.value, submit, packError).0);
        OnwardTrans(x, x1, RunScript(x1, handlers));
        OnwardTrans(x, RunScript(x1, handlers), Job(x, now, submit, packError, handlers));
      }
    }
  }

  lemma EnterStopped(x: Sys, now: int, submit: Option<SubmitError>, packError: Option<FileApiError>)
    requires Stopped(x) && x.f.jobs != []
    ensures R.JobEnter(RM.JobPopped(Room(x)), x.f.jobs[0], now, submit, packError).1.None?
  {
  }

  lemma SweepOnward(x: Sys, ids: seq<nat>, z: Sys)
    requires SysInv(x, None) && StreamBatch(x.phase) == []
    requires var y := WithWorld(x, S.DrainCleanups(World(x), ids)); z.q == y.q && z.p == y.p && z.s == y.s
    ensures Onward(x, z)
  {
    hide SG.Grew, Onward, S.DrainCleanups, NumbersOk, Running, Stopped;
    SG.SweepGrew(World(x), ids);
    if x.b.shutdown {
      SweptStopped(World(x), ids);
    } else {
      SweepRuns(x, ids);
      RunningNumbers(WithWorld(x, S.DrainCleanups(World(x), ids)), None);
    }
    WorldOnward(x, S.DrainCleanups(World(x), ids));
    SameOnward(x, WithWorld(x, S.DrainCleanups(World(x), ids)), z);
  }

  lemma SweptStopped(w: S.World, ids: seq<nat>)
    requires w.b.shutdown
    ensures S.DrainCleanups(w, ids) == w
  {
  }

  lemma ReaderTurnOnward(x: Sys)
    requires x.phase.ReaderDrain?
    ensures Onward(x, ReaderTurn(x))
  {
    hide RepliesOk, Onward, R.Settle, R.DropForShutdown, TakeStream, RequeueReader;
    NothingAdded(x, ReaderTurn(x));
  }

  lemma StreamTurnOnward(x: Sys, submit: Option<SubmitError>, packFails: bool, ids: seq<nat>)
    requires SysInv(x, None) && x.phase.StreamDrain?
    ensures Onward(x, StreamTurn(x, submit, packFails, ids))
  {
    hide SG.Grew, Onward, S.DrainCleanups, S.Settle, TakeWhole, S.Lands, NumbersOk, Running, Stopped;
    var batch := x.phase.stream;
    if batch == [] {
      SweepOnward(x, ids, StreamTurn(x, submit, packFails, ids));
    } else if x.b.shutdown {
      var w := S.DropForShutdown(World(x), batch[0].op);
      SG.DropForShutdownGrew(World(x), batch[0].op);
      SameNumbers(x.s, w.s);
      WorldOnward(x, w);
      SameOnward(x, WithWorld(x, w), StreamTurn(x, submit, packFails, ids));
    } else {
      var w := S.Settle(World(x), batch[0], submit, packFails);
      SG.SettleGrew(World(x), batch[0], submit, packFails);
      StreamTurns(x, submit, packFails, ids);
      RunningNumbers(StreamTurn(x, submit, packFails, ids), None);
      WorldOnward(x, w);
      SameOnward(x, WithWorld(x, w), StreamTurn(x, submit, packFails, ids));
    }
  }

  lemma SettleLog(d: P.Desk, done: WholeCompletion, packFails: bool)
    ensures d.p.log <= P.Settle(d, done, packFails).p.log
  {
  }

  lemma WholeTurnOnward(x: Sys, packFails: bool)
    requires SysInv(x, None) && x.phase.WholeDrain?
    ensures Onward(x, WholeTurn(x, packFails))
  {
    hide RepliesOk, Onward, P.Settle, Running;
    var batch := x.phase.whole;
    if batch == [] || x.b.shutdown {
      NothingAdded(x, WholeTurn(x, packFails));
    } else {
      var d := P.Settle(Desk(x), batch[0], packFails);
      SettleLog(Desk(x), batch[0], packFails);
      WholeTurns(x, packFails);
      RunningReplies(WholeTurn(x, packFails), None);
      DeskOnward(x, d);
      SameOnward(x, WithDesk(x, d), WholeTurn(x, packFails));
    }
  }

  /** Every step but the engine's own only adds promise jobs. */
  lemma AdvanceOnward(x: Sys, step: Step)
    requires SysInv(x, None) && !step.RunPromiseJob?
    ensures Onward(x, Advance(x, step))
  {
    hide SysInv, Onward, Do, Job, ReaderTurn, StreamTurn, WholeTurn, RepliesOk, S.DrainCleanups, TakeReader;
    NothingAdded(x, x);
    match step
    case Call(act) =>
      if x.phase.Idle? || IsEnvironment(act) {
        DoOnward(x, act, None);
      }
    case RunJob(now, submit, packError, handlers) =>
      if x.phase.Idle? && x.f.jobs != [] {
        JobOnward(x, now, submit, packError, handlers);
      }
    case Poll(budget, ids) =>
      if x.phase.Idle? {
        SweepOnward(x, ids, PollStart(x, budget, ids));
      }
    case Turn(submit, packFails, ids) =>
      match x.phase {
        case Idle =>
        case ReaderDrain(_, _, _) => ReaderTurnOnward(x);
        case StreamDrain(_, _) => StreamTurnOnward(x, submit, packFails, ids);
        case WholeDrain(_, _) => WholeTurnOnward(x, packFails);
      }
  }
}
