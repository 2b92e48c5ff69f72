/**
  Every act, job and turn of `poll_io` keeps the invariant of the context, with
  handlers doing whatever they please.
*/
module ContextSteps {
  import opened Common
  import opened Bridge
  import opened Context
  import opened ContextLaws
  import J = Jobs
  import P = Promises
  import R = Readers
  import RC = ReaderCalls
  import RF = ReaderFoot
  import RL = ReaderLaws
  import RT = ReaderTurns
  import S = Streams
  import SC = StreamCalls
  import SF = StreamFoot
  import SL = StreamLaws

  // ------------------------------------------------------------- promise acts

  lemma ReadPromiseBridge(d: P.Desk, blob: seq<Byte>, submit: Option<SubmitError>)
    ensures var b' := P.ReadPromise(d, blob, submit).0.b;
      var (b1, reserved) := Reserve(d.b);
      b' == d.b || b' == b1 || (reserved.Ok? && b' == Unreserve(b1, reserved.value).0)
  {
  }

  lemma ReadPromiseRuns(x: Sys, busy: Option<nat>, blob: seq<Byte>, submit: Option<SubmitError>)
    requires Running(x, busy)
    ensures Running(WithDesk(x, P.ReadPromise(Desk(x), blob, submit).0), busy)
  {
    var d := P.ReadPromise(Desk(x), blob, submit).0;
    P.ReadPromiseOutcome(Desk(x), WholeBatch(x.phase), blob, submit);
    ReserveOutcome(x.b);
    ReadPromiseBridge(Desk(x), blob, submit);
    FootAcquire(x.b);
    PromiseHeld(Desk(x), WholeBatch(x.phase));
    PromiseHeld(d, WholeBatch(x.phase));
    DeskStep(x, busy, d, x.phase, {});
  }

  lemma PromiseHeld(d: P.Desk, batch: seq<WholeCompletion>)
    requires P.PromiseInv(d, batch)
    ensures forall y :: y in d.p.pending ==> y in d.b.tokens && y < d.b.next
  {
    forall y | y in d.p.pending ensures y in d.b.tokens && y < d.b.next {
      assert P.Local(d, batch, y);
      assert At(d.b, y).token;
    }
  }

  lemma PromiseWorkerRuns(x: Sys, busy: Option<nat>, i: nat, failure: Option<FileApiError>)
    requires Running(x, busy) && i < |x.p.tasks|
    ensures Running(WithDesk(x, P.WorkerAnswers(Desk(x), i, failure)), busy)
  {
    var t := x.p.tasks[i];
    var d := P.WorkerAnswers(Desk(x), i, failure);
    var c := WholeCompletion(t.op, P.WholeAnswer(t.blob, failure));
    P.WorkerAnswersKeeps(Desk(x), WholeBatch(x.phase), i, failure);
    PushWholeViews(x.b, c);
    PushWholeKeeps(x.b, c);
    PromiseHeld(Desk(x), WholeBatch(x.phase));
    assert t.op in x.p.pending by {
      PickedRemove(x.p.tasks, i, P.TaskOp, t.op);
      assert P.Local(Desk(x), WholeBatch(x.phase), t.op);
    }
    DeskStep(x, busy, d, x.phase, {t.op});
  }

  // -------------------------------------------------------------- reader acts

  lemma HeldFollows(m: R.Room, m': R.Room, began: bool)
    requires Valid(m.b) && Valid(m'.b) && RC.HeldAs(m, m', began)
    requires forall y :: y in m.f.pending ==> y in m.b.tokens
    ensures SlotsFollow(m.b, m'.b, {}, m.f.pending.Keys, m'.f.pending.Keys)
  {
  }

  /** A call that started at most one read. */
  lemma StartedRuns(x: Sys, busy: Option<nat>, m: R.Room, began: bool)
    requires Running(x, busy) && RL.Live(m, ReaderBatch(x.phase), busy)
    requires Foot(x.b, m.b, {}) && RC.HeldAs(Room(x), m, began)
    ensures Running(WithRoom(x, m), busy)
  {
    ReaderHeld(Room(x), ReaderBatch(x.phase), busy);
    HeldFollows(Room(x), m, began);
    RoomStep(x, busy, m, busy, x.phase, {});
  }

  lemma StartReadRuns(x: Sys, busy: Option<nat>, r: nat, blob: seq<Byte>, kind: R.Kind, submit: Option<SubmitError>)
    requires Running(x, busy) && r < |x.f.natives| && (busy.Some? ==> busy.value < x.b.next)
    ensures Running(WithRoom(x, R.StartRead(Room(x), r, blob, kind, submit).0), busy)
  {
    var (m, result) := R.StartRead(Room(x), r, blob, kind, submit);
    RC.StartReadKeeps(Room(x), ReaderBatch(x.phase), busy, r, blob, kind, submit);
    RF.StartReadFoot(Room(x), r, blob, kind, submit);
    StartedRuns(x, busy, m, result.Accepted? && RC.Granting(Room(x)) && submit.None?);
  }

  lemma StartDataUrlRuns(x: Sys, busy: Option<nat>, r: nat, blob: seq<Byte>, fits: bool, submit: Option<SubmitError>)
    requires Running(x, busy) && r < |x.f.natives| && (busy.Some? ==> busy.value < x.b.next)
    ensures Running(WithRoom(x, R.StartDataUrl(Room(x), r, blob, fits, submit).0), busy)
  {
    var m := R.StartDataUrl(Room(x), r, blob, fits, submit).0;
    RC.StartDataUrlKeeps(Room(x), ReaderBatch(x.phase), busy, r, blob, fits, submit);
    RF.StartDataUrlFoot(Room(x), r, blob, fits, submit);
    StartedRuns(x, busy, m, RC.HeldAs(Room(x), m, true));
  }

  lemma NewReaderRuns(x: Sys, busy: Option<nat>)
    requires Running(x, busy)
    ensures Running(WithRoom(x, RT.NewReader(Room(x))), busy)
  {
    RT.NewReaderKeeps(Room(x), ReaderBatch(x.phase), busy);
    RF.WithinSame(Room(x), RT.NewReader(Room(x)), 0);
    RoomWithin(x, busy, RT.NewReader(Room(x)), busy, x.phase, 0);
  }

  lemma ReaderWorkerRuns(x: Sys, busy: Option<nat>, i: nat, failure: Option<FileApiError>)
    requires Running(x, busy) && i < |x.f.tasks|
    ensures Running(WithRoom(x, R.WorkerAnswers(Room(x), i, failure)), busy)
  {
    var m := R.WorkerAnswers(Room(x), i, failure);
    RT.WorkerAnswersKeeps(Room(x), ReaderBatch(x.phase), busy, i, failure);
    WorkerStays(Room(x), i, failure);
    OrphanAnswer(Room(x), ReaderBatch(x.phase), busy, i, failure);
    RoomWithin(x, busy, m, busy, x.phase, x.f.tasks[i].op);
  }

  /** The answer to an operation that is gone finds no slot. */
  lemma OrphanAnswer(m: R.Room, batch: seq<ChunkCompletion>, busy: Option<nat>, i: nat, failure: Option<FileApiError>)
    requires RL.Live(m, batch, busy) && i < |m.f.tasks|
    ensures m.f.tasks[i].op in m.f.pending || R.WorkerAnswers(m, i, failure).b == m.b
  {
    PickedRemove(m.f.tasks, i, RL.TaskOp, m.f.tasks[i].op);
    assert RL.OpLocal(m, batch, busy, m.f.tasks[i].op);
  }

  lemma WorkerStays(m: R.Room, i: nat, failure: Option<FileApiError>)
    requires Valid(m.b) && i < |m.f.tasks|
    ensures RF.Within(m, R.WorkerAnswers(m, i, failure), m.f.tasks[i].op)
  {
    var t := m.f.tasks[i];
    FootPushReader(m.b, ChunkCompletion(t.op, t.generation, R.Answer(t, failure)), {t.op});
  }

  // -------------------------------------------------------------- stream acts

  lemma CreateBridge(w: S.World, blob: seq<Byte>, mode: S.Mode)
    ensures var w' := S.CreateStream(w, blob, mode).0;
      w'.b == w.b || w'.b == Reserve(w.b).0
  {
  }

  lemma CreatedFollows(b: BridgeState, b': BridgeState, held: set<nat>, held': set<nat>, made: bool)
    requires Valid(b) && Valid(b') && held <= b.tokens
    requires held' == (if made then held + {b.next} else held)
    requires b'.tokens == (if made then b.tokens + {b.next} else b.tokens)
    ensures SlotsFollow(b, b', {}, held, held')
  {
  }

  lemma CreateStreamRuns(x: Sys, busy: Option<nat>, blob: seq<Byte>, mode: S.Mode)
    requires Running(x, busy) && x.phase.Idle?
    ensures Running(WithWorld(x, S.CreateStream(World(x), blob, mode).0), busy) && x.b.next <= S.CreateStream(World(x), blob, mode).0.b.next
  {
    var (w, r) := S.CreateStream(World(x), blob, mode);
    SC.CreateStreamKeeps(World(x), blob, mode);
    ReserveKeeps(x.b);
    CreateBridge(World(x), blob, mode);
    FootAcquire(x.b);
    StreamHeld(World(x), []);
    CreatedKeys(World(x), blob, mode);
    CreatedFollows(x.b, w.b, x.s.ops.Keys, w.s.ops.Keys, r.Ok?);
    WorldStep(x, busy, w, x.phase, {});
  }

  lemma CreatedKeys(w: S.World, blob: seq<Byte>, mode: S.Mode)
    requires Valid(w.b)
    ensures var (w', r) := S.CreateStream(w, blob, mode);
      && w'.s.ops.Keys == (if r.Ok? then w.s.ops.Keys + {w.b.next} else w.s.ops.Keys)
      && w'.b.tokens == (if r.Ok? then w.b.tokens + {w.b.next} else w.b.tokens)
  {
    hide Valid, Reserve;
    ReserveKeeps(w.b);
    CreateBridge(w, blob, mode);
  }

  /** A call that leaves bridge and roots alone. */
  lemma QuietRuns(x: Sys, busy: Option<nat>, w: S.World)
    requires Running(x, busy) && SL.StreamInv(w, StreamBatch(x.phase))
    requires Quiet(World(x), w)
    ensures Running(WithWorld(x, w), busy)
  {
    SF.WithinSame(World(x), w, {});
    WorldWithin(x, busy, w, x.phase, {});
  }

  lemma GetReaderRuns(x: Sys, busy: Option<nat>, op: nat)
    requires Running(x, busy)
    ensures Running(WithWorld(x, S.GetReader(World(x), op).0), busy) && x.b.next <= S.GetReader(World(x), op).0.b.next
  {
    SC.GetReaderKeeps(World(x), StreamBatch(x.phase), op);
    QuietRuns(x, busy, S.GetReader(World(x), op).0);
  }

  /** Bridge and roots are the same, and no cell appeared or went. */
  ghost predicate Quiet(w: S.World, w': S.World) {
    w'.b == w.b && w'.s.ops == w.s.ops && w'.s.cells.Keys == w.s.cells.Keys
  }

  lemma SignalIsQuiet(w: S.World, lock: nat)
    requires lock < |w.s.readers|
    ensures Quiet(w, S.SignalReader(w, lock)) && |S.SignalReader(w, lock).s.readers| == |w.s.readers|
  {
  }

  lemma DropIsQuiet(w: S.World, lock: nat)
    requires lock < |w.s.readers|
    ensures Quiet(w, S.DropReader(w, lock))
  {
    SignalIsQuiet(w, lock);
  }

  lemma UnlockIsQuiet(w: S.World, lock: nat)
    requires lock < |w.s.readers|
    ensures Quiet(w, S.ReleaseLock(w, lock).0)
  {
    SignalIsQuiet(w, lock);
    var w1 := S.MarkReleased(S.SignalReader(w, lock), lock);
    var op := w.s.readers[lock].op;
    if op in w1.s.cells {
      SF.CellKeys(w1, op, w1.s.cells[op].(readerRegistered := false, locked := false));
    }
  }

  lemma ReleaseLockRuns(x: Sys, busy: Option<nat>, lock: nat)
    requires Running(x, busy) && lock < |x.s.readers|
    ensures Running(WithWorld(x, S.ReleaseLock(World(x), lock).0), busy) && x.b.next <= S.ReleaseLock(World(x), lock).0.b.next
  {
    SC.ReleaseLockKeeps(World(x), StreamBatch(x.phase), lock);
    UnlockIsQuiet(World(x), lock);
    QuietRuns(x, busy, S.ReleaseLock(World(x), lock).0);
  }

  lemma DropStreamRuns(x: Sys, busy: Option<nat>, op: nat)
    requires Running(x, busy)
    ensures Running(WithWorld(x, S.DropStream(World(x), op)), busy) && x.b.next <= S.DropStream(World(x), op).b.next
  {
    SC.DropStreamKeeps(World(x), StreamBatch(x.phase), op);
    QuietRuns(x, busy, S.DropStream(World(x), op));
  }

  lemma DropReaderRuns(x: Sys, busy: Option<nat>, lock: nat)
    requires Running(x, busy) && lock < |x.s.readers|
    ensures Running(WithWorld(x, S.DropReader(World(x), lock)), busy) && x.b.next <= S.DropReader(World(x), lock).b.next
  {
    SC.DropReaderKeeps(World(x), StreamBatch(x.phase), lock);
    DropIsQuiet(World(x), lock);
    QuietRuns(x, busy, S.DropReader(World(x), lock));
  }

  /** A step about stream `op`, which does nothing to the bridge or the roots unless `op` is live. */
  lemma OneStreamRuns(x: Sys, busy: Option<nat>, w: S.World, phase: Phase, op: nat)
    requires Running(x, busy) && SL.StreamInv(w, StreamBatch(phase)) && SF.Within(World(x), w, {op})
    requires ReaderBatch(phase) == ReaderBatch(x.phase) && WholeBatch(phase) == WholeBatch(x.phase)
    requires op in x.s.ops || (w.b == x.b && w.s.ops == x.s.ops && w.s.cells.Keys == x.s.cells.Keys)
    ensures Running(WithWorld(x, w).(phase := phase), busy) && x.b.next <= w.b.next
  {
    if op in x.s.ops {
      WorldWithin(x, busy, w, phase, {op});
    } else {
      SF.WithinSame(World(x), w, {});
      WorldWithin(x, busy, w, phase, {});
    }
  }

  /** What is queued for promises is nobody's business here. */
  lemma QueueApart(x: Sys, q: J.Queue, busy: Option<nat>)
    requires Running(x, busy)
    ensures Running(x.(q := q), busy)
  {
  }

  lemma ReadWorldRuns(x: Sys, busy: Option<nat>, lock: nat, submit: Option<SubmitError>)
    requires Running(x, busy) && lock < |x.s.readers|
    ensures var w := S.ReaderRead(World(x), lock, submit).0;
      Running(WithWorld(x, w), busy) && x.b.next <= w.b.next
  {
    SC.ReaderReadKeeps(World(x), StreamBatch(x.phase), lock, submit);
    SF.ReaderReadFoot(World(x), lock, submit);
    OneStreamRuns(x, busy, S.ReaderRead(World(x), lock, submit).0, x.phase, x.s.readers[lock].op);
  }

  lemma ReadRuns(x: Sys, busy: Option<nat>, lock: nat, submit: Option<SubmitError>)
    requires Running(x, busy) && lock < |x.s.readers|
    ensures Running(ReadingStream(x, lock, submit), busy) && x.b.next <= ReadingStream(x, lock, submit).b.next
  {
    hide S.ReaderRead, Running;
    ReadWorldRuns(x, busy, lock, submit);
    QueueApart(WithWorld(x, S.ReaderRead(World(x), lock, submit).0), ReadingStream(x, lock, submit).q, busy);
  }

  lemma CancelStreamRuns(x: Sys, busy: Option<nat>, op: nat)
    requires Running(x, busy)
    ensures var w := S.StreamCancel(World(x), op).0;
      Running(WithWorld(x, w), busy) && x.b.next <= w.b.next
  {
    SC.StreamCancelKeeps(World(x), StreamBatch(x.phase), op);
    SF.StreamCancelFoot(World(x), op);
    OneStreamRuns(x, busy, S.StreamCancel(World(x), op).0, x.phase, op);
  }

  lemma CancelReaderRuns(x: Sys, busy: Option<nat>, lock: nat)
    requires Running(x, busy) && lock < |x.s.readers|
    ensures var w := S.ReaderCancel(World(x), lock).0;
      Running(WithWorld(x, w), busy) && x.b.next <= w.b.next
  {
    SC.ReaderCancelKeeps(World(x), StreamBatch(x.phase), lock);
    SF.ReaderCancelFoot(World(x), lock);
    OneStreamRuns(x, busy, S.ReaderCancel(World(x), lock).0, x.phase, x.s.readers[lock].op);
  }

  lemma CancelAnswers(x: Sys, busy: Option<nat>, w: S.World, r: S.CancelResult)
    requires Running(WithWorld(x, w), busy)
    ensures Running(Cancelling(x, w, r), busy) && Cancelling(x, w, r).b == w.b
  {
    hide Running;
    QueueApart(WithWorld(x, w), Cancelling(x, w, r).q, busy);
  }

  lemma StreamWorkerStays(w: S.World, batch: seq<ChunkCompletion>, i: nat, failure: Option<FileApiError>)
    requires SL.StreamInv(w, batch) && i < |w.s.tasks| && w.s.tasks[i].op in w.s.cells
    ensures var w' := S.WorkerAnswers(w, i, failure);
      && SF.Within(w, w', {w.s.tasks[i].op})
      && (w.s.tasks[i].op !in w.s.ops ==> w'.b == w.b)
  {
    var t := w.s.tasks[i];
    StreamHeld(w, batch);
    FootPushStream(w.b, ChunkCompletion(t.op, t.generation, S.Answer(w.s.cells[t.op].blob, t, failure)), {t.op});
  }

  lemma StreamWorkerRuns(x: Sys, busy: Option<nat>, i: nat, failure: Option<FileApiError>)
    requires Running(x, busy) && i < |x.s.tasks| && x.s.tasks[i].op in x.s.cells
    ensures Running(WithWorld(x, S.WorkerAnswers(World(x), i, failure)), busy) && x.b.next <= S.WorkerAnswers(World(x), i, failure).b.next
  {
    SC.WorkerAnswersKeeps(World(x), StreamBatch(x.phase), i, failure);
    StreamWorkerStays(World(x), StreamBatch(x.phase), i, failure);
    OneStreamRuns(x, busy, S.WorkerAnswers(World(x), i, failure), x.phase, x.s.tasks[i].op);
  }
}
