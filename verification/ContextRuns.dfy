/**
  Jobs, the turns of `poll_io`, and every run of a whole context.
*/
module ContextRuns {
  import opened Common
  import opened Bridge
  import opened Context
  import opened ContextLaws
  import opened ContextScripts
  import CS = ContextSteps
  import P = Promises
  import R = Readers
  import RC = ReaderCalls
  import RF = ReaderFoot
  import RL = ReaderLaws
  import RM = ReaderMoves
  import RR = ReaderRely
  import RS = ReaderSteps
  import RT = ReaderTurns
  import S = Streams
  import SC = StreamCalls
  import SF = StreamFoot
  import SL = StreamLaws

  // --------------------------------------------------------------------- jobs

  /** Where a frame's numbers come from: all are handed out already. */
  ghost predicate FrameBound(m: R.Room, fr: R.Frame) {
    fr.op < m.b.next && fr.generation < m.f.nextGeneration && fr.reader < |m.f.natives|
  }

  lemma PumpBound(m: R.Room, batch: seq<ChunkCompletion>, busy: Option<nat>, op: nat)
    requires RL.Live(m, batch, busy) && op in m.f.pending
    ensures op < m.b.next && m.f.pending[op].generation < m.f.nextGeneration
    ensures m.f.pending[op].reader < |m.f.natives|
  {
    assert RL.OpLocal(m, batch, busy, op);
    assert RL.RootOk(m, op);
  }

  lemma FrameBounded(m: R.Room, batch: seq<ChunkCompletion>, fr: R.Frame)
    requires RS.Suspended(m, batch, Some(fr))
    ensures FrameBound(m, fr)
  {
    if RS.IsPump(fr.pause) {
      PumpBound(m, batch, Some(fr.op), fr.op);
    } else {
      assert RL.ReaderOk(m, fr.reader);
    }
  }

  lemma JobTouches(m: R.Room, now: int, submit: Option<SubmitError>, packError: Option<FileApiError>)
    requires RL.Live(m, [], None) && m.f.jobs != []
    ensures var m' := R.JobEnter(RM.JobPopped(m), m.f.jobs[0], now, submit, packError).0;
      var op := RF.JobOp(m.f.jobs[0]);
      RF.Within(m, m', op) && (op in m.f.pending || m'.b == m.b)
  {
    var j := m.f.jobs[0];
    var m0 := RM.JobPopped(m);
    var m' := R.JobEnter(m0, j, now, submit, packError).0;
    RF.WithinSame(m, m0, RF.JobOp(j));
    RF.JobFoot(m0, j, now, submit, packError);
    RF.WithinTrans(m, m0, m', RF.JobOp(j));
    if j.Pump? {
      RC.HeadPump(m, []);
    }
  }

  /** A job up to its event, seen from the whole context. */
  lemma JobStarts(x: Sys, now: int, submit: Option<SubmitError>, packError: Option<FileApiError>)
    requires Running(x, None) && x.phase.Idle? && x.f.jobs != []
    ensures var (m, fr) := R.JobEnter(RM.JobPopped(Room(x)), x.f.jobs[0], now, submit, packError);
      && Running(WithRoom(x, m), RS.BusyOf(fr))
      && (fr.Some? ==> RS.FrameOk(m, fr.value) && FrameBound(m, fr.value) && !fr.value.pause.AfterAbort?)
  {
    var (m, fr) := R.JobEnter(RM.JobPopped(Room(x)), x.f.jobs[0], now, submit, packError);
    RC.JobKeeps(Room(x), [], now, submit, packError);
    JobTouches(Room(x), now, submit, packError);
    RoomWithin(x, None, m, RS.BusyOf(fr), x.phase, RF.JobOp(x.f.jobs[0]));
    if fr.Some? {
      FrameBounded(m, [], fr.value);
    }
  }

  lemma ResumeStopped(x: Sys, fr: R.Frame, submit: Option<SubmitError>, packError: Option<FileApiError>)
    requires Stopped(x) && !fr.pause.AfterAbort?
    ensures var (m, next) := R.Resume(Room(x), fr, submit, packError);
      && next.None? && Stopped(WithRoom(x, m)) && Frozen(x, WithRoom(x, m))
  {
    var m := R.Resume(Room(x), fr, submit, packError).0;
    StoppedAs(x, WithRoom(x, m));
  }

  lemma ResumeTouches(m: R.Room, batch: seq<ChunkCompletion>, fr: R.Frame, submit: Option<SubmitError>,
                      packError: Option<FileApiError>)
    requires RS.Turn(m, batch, Some(fr)) && !fr.pause.AfterAbort?
    ensures var m' := R.Resume(m, fr, submit, packError).0;
      RF.Within(m, m', fr.op) && (fr.op in m.f.pending || m'.b == m.b)
  {
    RC.ResumeKeeps(m, batch, fr, submit, packError);
    RF.ResumeFoot(m, fr, submit, packError);
  }

  /** The frame goes on after its handlers, seen from the whole context. */
  lemma ResumeRuns(x: Sys, fr: R.Frame, submit: Option<SubmitError>, packError: Option<FileApiError>)
    requires Running(x, RS.BusyOf(Some(fr))) && x.phase.Idle? && RS.FrameOk(Room(x), fr) && !fr.pause.AfterAbort?
    ensures var (m, next) := R.Resume(Room(x), fr, submit, packError);
      next.None? && Running(WithRoom(x, m), None)
  {
    var m := R.Resume(Room(x), fr, submit, packError).0;
    RC.ResumeKeeps(Room(x), [], fr, submit, packError);
    ResumeTouches(Room(x), [], fr, submit, packError);
    RoomWithin(x, RS.BusyOf(Some(fr)), m, None, x.phase, fr.op);
  }

  lemma PumpLoads(m: R.Room, batch: seq<ChunkCompletion>, fr: R.Frame)
    requires RS.Turn(m, batch, Some(fr)) && fr.reader < |m.f.natives|
    ensures RS.IsPump(fr.pause) && R.Current(m.f, fr.reader, fr.generation) ==>
      m.f.natives[fr.reader].ready.Loading?
  {
    if RS.IsPump(fr.pause) && R.Current(m.f, fr.reader, fr.generation) {
      RT.OwnsOnly(m, batch, Some(fr.op), fr.op, fr.reader, fr.generation);
    }
  }

  /** The handlers have run; the frame is still in step with what they left. */
  lemma StillInStep(x: Sys, x1: Sys, fr: R.Frame)
    requires Running(x, RS.BusyOf(Some(fr))) && x.phase.Idle?
    requires RS.FrameOk(Room(x), fr) && FrameBound(Room(x), fr)
    requires RR.Rely(x.f.nextGeneration, x.b.next, Room(x), Room(x1))
    ensures RS.FrameOk(Room(x1), fr)
  {
    PumpLoads(Room(x), [], fr);
    RR.FrameRely(x.f.nextGeneration, x.b.next, Room(x), Room(x1), fr);
  }

  lemma HandledRest(x: Sys, x1: Sys, fr: R.Frame, submit: Option<SubmitError>, packError: Option<FileApiError>)
    requires Running(x, RS.BusyOf(Some(fr))) && !x.b.shutdown && x.phase.Idle?
    requires RS.FrameOk(Room(x), fr) && FrameBound(Room(x), fr) && !fr.pause.AfterAbort?
    requires Kept(x, x1, RS.BusyOf(Some(fr)), x.f.nextGeneration, x.b.next)
    ensures var (m, next) := R.Resume(Room(x1), fr, submit, packError);
      next.None? && SysInv(WithRoom(x1, m), None)
  {
    if x1.b.shutdown {
      ResumeStopped(x1, fr, submit, packError);
    } else {
      StillInStep(x, x1, fr);
      ResumeRuns(x1, fr, submit, packError);
    }
  }

  /** Handlers of any kind, then the rest of the job. */
  lemma HandledRuns(x: Sys, fr: R.Frame, submit: Option<SubmitError>, packError: Option<FileApiError>, handlers: Script)
    requires Running(x, RS.BusyOf(Some(fr))) && !x.b.shutdown && x.phase.Idle?
    requires RS.FrameOk(Room(x), fr) && FrameBound(Room(x), fr) && !fr.pause.AfterAbort?
    ensures var (x', next) := Handled(x, fr, submit, packError, handlers);
      next.None? && SysInv(x', None) && x'.phase == x.phase
  {
    ScriptKeeps(x, handlers, RS.BusyOf(Some(fr)), x.f.nextGeneration, x.b.next);
    HandledRest(x, RunScript(x, handlers), fr, submit, packError);
  }

  /** A whole job, with its handlers. */
  lemma JobRuns(x: Sys, now: int, submit: Option<SubmitError>, packError: Option<FileApiError>,
                handlers: Script)
    requires Running(x, None) && !x.b.shutdown && x.phase.Idle? && x.f.jobs != []
    ensures var x' := Job(x, now, submit, packError, handlers);
      SysInv(x', None) && x'.phase == x.phase
  {
    hide R.JobEnter, RunScript;
    var (m, fr) := R.JobEnter(RM.JobPopped(Room(x)), x.f.jobs[0], now, submit, packError);
    JobStarts(x, now, submit, packError);
    if fr.Some? {
      HandledRuns(WithRoom(x, m), fr.value, submit, packError, handlers);
    }
  }

  /** After shutdown a queued job is a no-op. */
  lemma JobStopped(x: Sys, now: int, submit: Option<SubmitError>, packError: Option<FileApiError>,
                   handlers: Script)
    requires Stopped(x) && x.f.jobs != []
    ensures var x' := Job(x, now, submit, packError, handlers);
      Stopped(x') && Frozen(x, x') && x'.phase == x.phase
  {
    var m := RM.JobPopped(Room(x));
    assert R.JobEnter(m, x.f.jobs[0], now, submit, packError) == (m, None);
    StoppedAs(x, WithRoom(x, m));
  }

  // ------------------------------------------------------------------ polling

  /** Slots that are not a reader's carry no reader completion, and so for streams. */
  lemma QueuesOwned(x: Sys, busy: Option<nat>)
    requires Running(x, busy)
    ensures forall y: nat :: y in x.b.tokens && y !in x.f.pending ==> At(x.b, y).readerQ == []
    ensures forall y: nat :: y in x.b.tokens && y !in x.s.ops ==> At(x.b, y).streamQ == []
  {
    forall y: nat | y in x.b.tokens
      ensures y !in x.f.pending ==> At(x.b, y).readerQ == []
      ensures y !in x.s.ops ==> At(x.b, y).streamQ == []
    {
      assert y in x.p.pending || y in x.f.pending || y in x.s.ops;
      assert P.Local(Desk(x), WholeBatch(x.phase), y);
      assert RL.OpLocal(Room(x), ReaderBatch(x.phase), busy, y);
      assert SL.Local(World(x), StreamBatch(x.phase), y);
    }
  }

  lemma TakeReaderFoot(b: BridgeState, ids: set<nat>)
    requires Valid(b)
    requires forall y: nat :: y in b.tokens && y !in ids ==> At(b, y).readerQ == []
    ensures Foot(b, TakeReader(b).0, ids) && TakeReader(b).0.tokens == b.tokens && TakeReader(b).0.next == b.next
  {
    TakeReaderKeeps(b);
  }

  lemma TakeStreamFoot(b: BridgeState, ids: set<nat>)
    requires Valid(b)
    requires forall y: nat :: y in b.tokens && y !in ids ==> At(b, y).streamQ == []
    ensures Foot(b, TakeStream(b).0, ids) && TakeStream(b).0.tokens == b.tokens && TakeStream(b).0.next == b.next
  {
    TakeStreamKeeps(b);
  }

  /** A drain moves completions, not slots. */
  lemma SameSlots(b: BridgeState, b': BridgeState, held: set<nat>)
    requires Valid(b) && Valid(b') && b'.tokens == b.tokens && b'.next == b.next && held <= b.tokens
    ensures forall ids :: ids <= held ==> SlotsFollow(b, b', ids, held, held)
  {
  }

  lemma TakeReaderRuns(x: Sys, budget: Option<nat>)
    requires Running(x, None) && x.phase.Idle?
    ensures var (b', batch) := TakeReader(x.b);
      Running(x.(b := b', phase := ReaderDrain(batch, 0, budget)), None)
  {
    hide RL.Live, SlotsMatch;
    var (b', batch) := TakeReader(x.b);
    QueuesOwned(x, None);
    RT.TakeReaderMoves(Room(x));
    TakeReaderFoot(x.b, x.f.pending.Keys);
    ReaderHeld(Room(x), [], None);
    SameSlots(x.b, b', x.f.pending.Keys);
    RoomStep(x, None, R.Room(b', x.f), None, ReaderDrain(batch, 0, budget), x.f.pending.Keys);
  }

  lemma SweepRuns(x: Sys, ids: seq<nat>)
    requires Running(x, None) && StreamBatch(x.phase) == []
    ensures Running(WithWorld(x, S.DrainCleanups(World(x), ids)), None)
  {
    SC.DrainCleanupsKeeps(World(x), [], ids);
    SF.SweepFoot(World(x), ids);
    WorldWithin(x, None, S.DrainCleanups(World(x), ids), x.phase, x.s.ops.Keys);
  }

  lemma PollStarts(x: Sys, budget: Option<nat>, ids: seq<nat>)
    requires Running(x, None) && x.phase.Idle?
    ensures Running(PollStart(x, budget, ids), None)
  {
    SweepRuns(x, ids);
    TakeReaderRuns(WithWorld(x, S.DrainCleanups(World(x), ids)), budget);
  }

  lemma TakeStreamRuns(x: Sys)
    requires Running(x, None) && x.phase.ReaderDrain? && x.phase.reader == []
    ensures Running(x.(b := TakeStream(x.b).0, phase := StreamDrain(TakeStream(x.b).1, x.phase.settled)), None)
  {
    var (b', batch) := TakeStream(x.b);
    QueuesOwned(x, None);
    SC.TakeStreamMoves(World(x));
    TakeStreamFoot(x.b, x.s.ops.Keys);
    StreamHeld(World(x), []);
    SameSlots(x.b, b', x.s.ops.Keys);
    WorldStep(x, None, S.World(b', x.s), StreamDrain(batch, x.phase.settled), x.s.ops.Keys);
  }

  /** A completion whose operation is gone finds no slot to go back to. */
  lemma OrphanRequeue(m: R.Room, c: ChunkCompletion, rest: seq<ChunkCompletion>)
    requires RL.Live(m, [c] + rest, None)
    ensures c.op in m.f.pending || RequeueReader(m.b, c) == m.b
  {
    RT.BatchHead(c, rest, c.op);
    assert RL.OpLocal(m, [c] + rest, None, c.op);
  }

  lemma RequeueRuns(x: Sys, c: ChunkCompletion, rest: seq<ChunkCompletion>, phase: Phase)
    requires Running(x, None) && ReaderBatch(x.phase) == [c] + rest && ReaderBatch(phase) == rest
    requires WholeBatch(phase) == WholeBatch(x.phase) && StreamBatch(phase) == StreamBatch(x.phase)
    ensures Running(x.(b := RequeueReader(x.b, c), phase := phase), None)
  {
    var m := R.Room(RequeueReader(x.b, c), x.f);
    RT.RequeueKeeps(Room(x), c, rest);
    OrphanRequeue(Room(x), c, rest);
    FootRequeueReader(x.b, c, {c.op});
    RoomWithin(x, None, m, None, phase, c.op);
  }

  lemma SettleReaderRuns(x: Sys, c: ChunkCompletion, rest: seq<ChunkCompletion>, phase: Phase)
    requires Running(x, None) && ReaderBatch(x.phase) == [c] + rest && ReaderBatch(phase) == rest
    requires WholeBatch(phase) == WholeBatch(x.phase) && StreamBatch(phase) == StreamBatch(x.phase)
    ensures Running(WithRoom(x, R.Settle(Room(x), c)).(phase := phase), None)
  {
    RT.SettleKeeps(Room(x), c, rest);
    RF.WithinSame(Room(x), R.Settle(Room(x), c), 0);
    RoomWithin(x, None, R.Settle(Room(x), c), None, phase, 0);
  }

  lemma ReaderTurns(x: Sys)
    requires Running(x, None) && x.phase.ReaderDrain?
    ensures Running(ReaderTurn(x), None)
  {
    var ReaderDrain(batch, settled, budget) := x.phase;
    RunningIsOpen(x, None);
    if batch == [] {
      TakeStreamRuns(x);
    } else {
      assert batch == [batch[0]] + batch[1..];
      if OverBudget(settled, budget) {
        RequeueRuns(x, batch[0], batch[1..], ReaderTurn(x).phase);
      } else {
        SettleReaderRuns(x, batch[0], batch[1..], ReaderTurn(x).phase);
      }
    }
  }

  lemma SettleStreamRuns(x: Sys, c: ChunkCompletion, rest: seq<ChunkCompletion>, submit: Option<SubmitError>,
                         packFails: bool, count: nat)
    requires Running(x, None) && x.phase.StreamDrain? && x.phase.stream == [c] + rest
    ensures Running(WithWorld(x, S.Settle(World(x), c, submit, packFails)).(phase := StreamDrain(rest, count)), None)
  {
    SC.SettleKeeps(World(x), c, rest, submit, packFails);
    SF.SettleFoot(World(x), c, submit, packFails);
    CS.OneStreamRuns(x, None, S.Settle(World(x), c, submit, packFails), StreamDrain(rest, count), c.op);
  }

  lemma TakeWholeFoot(d: P.Desk)
    requires P.PromiseInv(d, [])
    ensures FootAt(d.b, TakeWhole(d.b).0, d.p.pending)
    ensures TakeWhole(d.b).0.tokens == d.b.tokens && TakeWhole(d.b).0.next == d.b.next
  {
    TakeWholeKeeps(d.b);
    assert forall y :: y in ReadyIds(d.b) ==> y in d.b.completions;
  }

  lemma TakeWholeRuns(x: Sys, count: nat)
    requires Running(x, None) && ReaderBatch(x.phase) == [] && StreamBatch(x.phase) == [] && WholeBatch(x.phase) == []
    ensures Running(x.(b := TakeWhole(x.b).0, phase := WholeDrain(TakeWhole(x.b).1, count)), None)
  {
    var (b', batch) := TakeWhole(x.b);
    P.TakeWholeMoves(Desk(x));
    TakeWholeFoot(Desk(x));
    CS.PromiseHeld(Desk(x), []);
    SameSlots(x.b, b', x.p.pending);
    DeskStep(x, None, P.Desk(b', x.p), WholeDrain(batch, count), x.p.pending);
  }

  lemma StreamTurns(x: Sys, submit: Option<SubmitError>, packFails: bool, ids: seq<nat>)
    requires Running(x, None) && x.phase.StreamDrain?
    ensures Running(StreamTurn(x, submit, packFails, ids), None)
  {
    var StreamDrain(batch, count) := x.phase;
    RunningIsOpen(x, None);
    if batch == [] {
      SweepRuns(x, ids);
      TakeWholeRuns(WithWorld(x, S.DrainCleanups(World(x), ids)), count);
    } else {
      assert batch == [batch[0]] + batch[1..];
      SettleStreamRuns(x, batch[0], batch[1..], submit, packFails,
                       count + if S.Lands(World(x), batch[0]) then 1 else 0);
    }
  }

  lemma SettleWholeRuns(x: Sys, c: WholeCompletion, rest: seq<WholeCompletion>, packFails: bool, count: nat)
    requires Running(x, None) && x.phase.WholeDrain? && x.phase.whole == [c] + rest
    ensures Running(WithDesk(x, P.Settle(Desk(x), c, packFails)).(phase := WholeDrain(rest, count)), None)
  {
    var d := P.Settle(Desk(x), c, packFails);
    P.SettleKeeps(Desk(x), c, rest, packFails);
    FootUnreserve(x.b, c.op, {c.op});
    UnreserveKeeps(x.b, c.op);
    CS.PromiseHeld(d, rest);
    DeskStep(x, None, d, WholeDrain(rest, count), {c.op});
  }

  lemma WholeTurns(x: Sys, packFails: bool)
    requires Running(x, None) && x.phase.WholeDrain?
    ensures Running(WholeTurn(x, packFails), None)
  {
    var WholeDrain(batch, count) := x.phase;
    RunningIsOpen(x, None);
    if batch != [] {
      assert batch == [batch[0]] + batch[1..];
      SettleWholeRuns(x, batch[0], batch[1..], packFails, count + 1);
    }
  }

  // -------------------------------------------------------------- after shutdown

  lemma NothingQueued(b: BridgeState)
    requires Valid(b) && b.shutdown
    ensures b.order == [] && TakeReader(b).1 == [] && TakeStream(b).1 == [] && TakeWhole(b).1 == []
  {
    assert forall id :: id !in b.order;
    WithoutNothing(b.order, b.chunkMarks);
  }

  /** A poll after shutdown finds nothing and says nothing. */
  lemma PollStopped(x: Sys, budget: Option<nat>, ids: seq<nat>)
    requires Stopped(x)
    ensures Stopped(PollStart(x, budget, ids)) && Frozen(x, PollStart(x, budget, ids))
  {
    NothingQueued(x.b);
    TakeReaderKeeps(x.b);
  }

  lemma ReaderTurnStopped(x: Sys)
    requires Stopped(x) && x.phase.ReaderDrain?
    ensures Stopped(ReaderTurn(x)) && Frozen(x, ReaderTurn(x))
  {
    hide R.Settle, RL.PhaseOf;
    NothingQueued(x.b);
    TakeStreamKeeps(x.b);
  }

  lemma StreamTurnStopped(x: Sys, submit: Option<SubmitError>, packFails: bool, ids: seq<nat>)
    requires Stopped(x) && x.phase.StreamDrain?
    ensures var x' := StreamTurn(x, submit, packFails, ids);
      Stopped(x') && Frozen(x, x')
  {
    hide S.AbandonAll, S.Settle, RL.PhaseOf;
    NothingQueued(x.b);
    TakeWholeKeeps(x.b);
  }

  lemma TurnStopped(x: Sys, submit: Option<SubmitError>, packFails: bool, ids: seq<nat>)
    requires Stopped(x)
    ensures var x' := Advance(x, Turn(submit, packFails, ids));
      Stopped(x') && Frozen(x, x')
  {
    hide ReaderTurn, StreamTurn, P.Settle, RL.PhaseOf;
    if x.phase.ReaderDrain? {
      ReaderTurnStopped(x);
    } else if x.phase.StreamDrain? {
      StreamTurnStopped(x, submit, packFails, ids);
    }
  }

  /** After shutdown no step adds an event, a result or a reply to an owed read. */
  lemma AdvanceStopped(x: Sys, step: Step)
    requires Stopped(x)
    ensures Stopped(Advance(x, step)) && Frozen(x, Advance(x, step))
  {
    match step
    case Call(act) => DoStopped(x, act);
    case RunPromiseJob => StoppedAs(x, Advance(x, step));
    case RunJob(now, submit, packError, handlers) =>
      if x.f.jobs != [] {
        JobStopped(x, now, submit, packError, handlers);
      }
    case Poll(budget, ids) => PollStopped(x, budget, ids);
    case Turn(submit, packFails, ids) => TurnStopped(x, submit, packFails, ids);
  }

  // ------------------------------------------------------------------- all runs

  lemma TurnRuns(x: Sys, submit: Option<SubmitError>, packFails: bool, ids: seq<nat>)
    requires Running(x, None)
    ensures Running(Advance(x, Turn(submit, packFails, ids)), None)
  {
    hide Running;
    match x.phase
    case Idle =>
    case ReaderDrain(_, _, _) => ReaderTurns(x);
    case StreamDrain(_, _) => StreamTurns(x, submit, packFails, ids);
    case WholeDrain(_, _) => WholeTurns(x, packFails);
  }

  lemma RunningIsOpen(x: Sys, busy: Option<nat>)
    requires Running(x, busy)
    ensures !x.b.shutdown
  {
  }

  lemma AdvanceKeeps(x: Sys, step: Step)
    requires SysInv(x, None)
    ensures SysInv(Advance(x, step), None)
  {
    if x.b.shutdown {
      AdvanceStopped(x, step);
    } else {
      match step
      case Call(act) =>
        if x.phase.Idle? || IsEnvironment(act) {
          DoKeeps(x, act, None, 0, 0);
        }
      case RunPromiseJob =>
      case RunJob(now, submit, packError, handlers) =>
        if x.phase.Idle? && x.f.jobs != [] {
          JobRuns(x, now, submit, packError, handlers);
        }
      case Poll(budget, ids) =>
        if x.phase.Idle? {
          PollStarts(x, budget, ids);
        }
        RunningIsOpen(Advance(x, step), None);
      case Turn(submit, packFails, ids) =>
        TurnRuns(x, submit, packFails, ids);
        RunningIsOpen(Advance(x, step), None);
    }
  }

  lemma StartDesk(concurrency: nat, maxBytes: nat, chunkSize: nat)
    ensures P.PromiseInv(Desk(Start(concurrency, maxBytes, chunkSize)), [])
  {
    var x := Start(concurrency, maxBytes, chunkSize);
    assert P.LogIds([]) + P.BatchIds([]) == [];
    forall op ensures P.Local(Desk(x), [], op) {
      assert P.TasksOf([], op) == [];
    }
  }

  lemma StartRoom(concurrency: nat, maxBytes: nat, chunkSize: nat)
    ensures RL.Live(Room(Start(concurrency, maxBytes, chunkSize)), [], None)
  {
    var x := Start(concurrency, maxBytes, chunkSize);
    forall op ensures RL.OpLocal(Room(x), [], None, op) {
    }
    forall g ensures RL.GenLocal(Room(x), g) {
    }
  }

  lemma StartWorld(concurrency: nat, maxBytes: nat, chunkSize: nat)
    ensures SL.StreamInv(World(Start(concurrency, maxBytes, chunkSize)), [])
  {
    var x := Start(concurrency, maxBytes, chunkSize);
    forall op ensures SL.Local(World(x), [], op) {
    }
  }

  lemma StartInv(concurrency: nat, maxBytes: nat, chunkSize: nat)
    ensures SysInv(Start(concurrency, maxBytes, chunkSize), None)
  {
    hide P.PromiseInv, RL.Live, SL.StreamInv, Bridge.Valid;
    StartDesk(concurrency, maxBytes, chunkSize);
    StartRoom(concurrency, maxBytes, chunkSize);
    StartWorld(concurrency, maxBytes, chunkSize);
  }

  /**
    Whatever public calls, handlers, workers, collector and polls do, in
    whatever order, the whole context stays consistent.
  */
  lemma {:induction false} RunKeeps(x: Sys, steps: seq<Step>)
    requires SysInv(x, None)
    ensures SysInv(After(x, steps), None)
    decreases |steps|
  {
    if steps != [] {
      AdvanceKeeps(x, steps[0]);
      RunKeeps(Advance(x, steps[0]), steps[1..]);
    }
  }
}
