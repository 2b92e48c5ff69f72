/**
  The FileReader runtime as the object it is: reader records, pending tables
  and the job queue changed in place next to the bridge. A method that comes to
  an event dispatch stops there and hands back the frame that waits for the
  handlers. Every method does what the matching function of module Readers says.
*/
module ReaderObjects {
  import opened Common
  import opened Bridge
  import opened Io
  import opened Readers

  class ReaderRuntime {
    const io: IoBridge
    const chunkSize: nat
    var natives: seq<Native>
    var active: nat
    var nextGeneration: nat
    var pending: map<nat, PendingOp>
    var pumps: map<nat, PumpState>
    var payloads: map<nat, seq<Byte>>
    var tasks: seq<Task>
    var jobs: seq<Job>
    var events: seq<Event>
    ghost var asked: map<nat, seq<Byte>>
    ghost var published: seq<Publication>

    ghost function Tables(): ReaderState
      reads this
    {
      ReaderState(chunkSize, natives, active, nextGeneration, pending, pumps, payloads, tasks, jobs,
                  events, asked, published)
    }

    ghost function State(): Room
      reads this, io
    {
      Room(io.State(), Tables())
    }

    ghost predicate Valid()
      reads this, io
    {
      Bridge.Valid(io.State())
    }

    constructor (io: IoBridge, chunkSize: nat)
      ensures this.io == io && Tables() == InitReaders(chunkSize)
    {
      this.io := io;
      this.chunkSize := chunkSize;
      natives, active, nextGeneration := [], 0, 1;
      pending, pumps, payloads := map[], map[], map[];
      tasks, jobs, events, asked, published := [], [], [], map[], [];
    }

    // ------------------------------------------------------- start of reads

    method FailFast(r: nat, total: nat, problem: Problem)
      requires Valid() && r < |natives|
      modifies this
      ensures Valid() && State() == Readers.FailFast(old(State()), r, total, problem)
    {
      var g := nextGeneration;
      nextGeneration := g + 1;
      natives := natives[r := Native(Done, None, Some(problem), g, false, total, 0)];
      jobs := jobs + [Dispatch(r, g, Error, 0, total)];
    }

    method StartRead(r: nat, blob: seq<Byte>, kind: Kind, submit: Option<SubmitError>) returns (answer: StartResult)
      requires Valid() && r < |natives|
      modifies this, io
      ensures Valid() && (State(), answer) == Readers.StartRead(old(State()), r, blob, kind, submit)
    {
      hide Readers.FailFast, Readers.Begin, Bridge.Reserve;
      if natives[r].ready.Loading? {
        return InvalidState;
      }
      if io.shutdown {
        FailFast(r, |blob|, Closed);
        return Accepted;
      }
      if active >= io.concurrencyLimit {
        FailFast(r, |blob|, Quota);
        return Accepted;
      }
      ReserveKeeps(io.State());
      var reserved := io.Reserve();
      if reserved.Err? {
        FailFast(r, |blob|, Quota);
        return Accepted;
      }
      answer := Begin(r, reserved.value, blob, kind, submit);
    }

    /** `start_read` with the slot in hand. */
    method Begin(r: nat, op: nat, blob: seq<Byte>, kind: Kind, submit: Option<SubmitError>) returns (answer: StartResult)
      requires Valid() && r < |natives|
      modifies this, io
      ensures Valid() && (State(), answer) == Readers.Begin(old(State()), r, op, blob, kind, submit)
    {
      hide Readers.RefusedStart, Readers.Started;
      var g := nextGeneration;
      nextGeneration := g + 1;
      active := active + 1;
      if !ChunkInRange(chunkSize) {
        active := Less(active);
        GiveBack(op);
        return BadChunkSize;
      }
      if submit.Some? {
        RefuseStart(r, op, g, blob, submit.value);
      } else {
        RegisterStart(r, op, g, blob, kind);
      }
      answer := Accepted;
    }

    method GiveBack(op: nat)
      requires Valid()
      modifies io
      ensures Valid() && State() == old(State()).(b := Bridge.Unreserve(old(io.State()), op).0)
    {
      UnreserveKeeps(io.State(), op);
      var _ := io.Unreserve(op);
    }

    method RegisterStart(r: nat, op: nat, g: nat, blob: seq<Byte>, kind: Kind)
      requires Valid() && r < |natives|
      modifies this
      ensures Valid() && State() == Started(old(State()), r, op, g, blob, kind)
    {
      Register(op, PendingOp(r, g), blob, PumpState(|blob|, chunkSize, kind, 0, I64_MIN, false, [], false));
      natives := natives[r := Native(Loading, None, None, g, false, |blob|, 0)];
      asked := asked[g := blob];
      tasks := tasks + [Task(op, g, blob, 0, Min(chunkSize, |blob|))];
    }

    method Register(op: nat, root: PendingOp, blob: seq<Byte>, state: PumpState)
      modifies this`pending, this`payloads, this`pumps
      ensures pending == old(pending)[op := root] && payloads == old(payloads)[op := blob] && pumps == old(pumps)[op := state]
    {
      pending := pending[op := root];
      payloads := payloads[op := blob];
      pumps := pumps[op := state];
    }

    method RefuseStart(r: nat, op: nat, g: nat, blob: seq<Byte>, error: SubmitError)
      requires Valid() && r < |natives|
      modifies this, io
      ensures Valid() && State() == RefusedStart(old(State()), r, op, g, blob, error)
    {
      DropOperation(op);
      active := Less(active);
      natives := natives[r := Native(Done, None, Some(Core(SubmitFailure(error))), g, false, |blob|, 0)];
      jobs := jobs + [Dispatch(r, g, Error, 0, |blob|)];
    }

    method StartDataUrl(r: nat, blob: seq<Byte>, fits: bool, submit: Option<SubmitError>) returns (answer: StartResult)
      requires Valid() && r < |natives|
      modifies this, io
      ensures Valid() && (State(), answer) == Readers.StartDataUrl(old(State()), r, blob, fits, submit)
    {
      hide Readers.FailFast, Readers.StartRead;
      if natives[r].ready.Loading? {
        return InvalidState;
      }
      if active >= io.concurrencyLimit {
        FailFast(r, |blob|, Quota);
        return Accepted;
      }
      if !fits {
        FailFast(r, |blob|, TooLong);
        return Accepted;
      }
      answer := StartRead(r, blob, DataUrl, submit);
    }

    // ---------------------------------------------------------------- abort

    /** No reader owns two operations, so the search below has one answer. */
    ghost predicate OneOpEach()
      reads this
    {
      forall a, b :: a in pending && b in pending && pending[a].reader == pending[b].reader ==> a == b
    }

    method FindOp(r: nat) returns (found: Option<nat>)
      requires OneOpEach()
      ensures found == if HasOp(pending, r) then Some(OpOf(pending, r)) else None
    {
      var left := pending.Keys;
      while left != {}
        invariant left <= pending.Keys
        invariant forall op :: op in pending && op !in left ==> pending[op].reader != r
        decreases left
      {
        var op :| op in left;
        if pending[op].reader == r {
          return Some(op);
        }
        left := left - {op};
      }
      found := None;
    }

    method Abort(r: nat, now: int) returns (frame: Option<Frame>)
      requires Valid() && r < |natives| && OneOpEach()
      modifies this, io
      ensures Valid() && (State(), frame) == AbortCall(old(State()), r, now)
    {
      var n := natives[r];
      if !n.ready.Loading? {
        natives := natives[r := n.(result := None)];
        return None;
      }
      var g := nextGeneration;
      nextGeneration := g + 1;
      active := Less(active);
      var found := FindOp(r);
      if found.Some? {
        DropOperation(found.value);
      }
      natives := natives[r := Native(Done, None, None, g, false, n.total, n.loaded)];
      if io.shutdown {
        return None;
      }
      events := events + [Event(r, g, EventKind.Abort, n.loaded, n.total, now)];
      frame := Some(Frame(r, g, 0, now, AfterAbort(n.loaded, n.total)));
    }

    method DropOperation(op: nat)
      requires Valid()
      modifies this`payloads, this`pending, this`pumps, io
      ensures Valid() && State() == Dropped(old(State()), op)
    {
      payloads := payloads - {op};
      pending := pending - {op};
      pumps := pumps - {op};
      GiveBack(op);
    }

    method ResumeAbort(r: nat, g: nat, now: int, loaded: nat, total: nat) returns (frame: Option<Frame>)
      requires Valid()
      modifies this
      ensures Valid() && (State(), frame) == Readers.ResumeAbort(old(State()), r, g, now, loaded, total)
    {
      if r >= |natives| || natives[r].generation != g {
        return None;
      }
      natives := natives[r := natives[r].(terminalDispatched := true)];
      if io.shutdown {
        return None;
      }
      events := events + [Event(r, g, LoadEnd, loaded, total, now)];
      frame := Some(Frame(r, g, 0, now, AfterLoadend));
    }

    // ---------------------------------------------------- terminal settling

    method SettleRelease(op: nat)
      requires Valid()
      modifies this, io
      ensures Valid() && State() == Readers.SettleRelease(old(State()), op)
    {
      if op in pending {
        pending := pending - {op};
        active := Less(active);
        payloads := payloads - {op};
        GiveBack(op);
      }
      pumps := pumps - {op};
    }

    method FailOperation(r: nat, op: nat, g: nat, total: nat, problem: Problem)
      requires Valid()
      modifies this, io
      ensures Valid() && State() == Readers.FailOperation(old(State()), r, op, g, total, problem)
    {
      hide Readers.SettleRelease;
      if r >= |natives| || natives[r].generation != g {
        return;
      }
      natives := natives[r := natives[r].(ready := Done, result := None, error := Some(problem), terminalDispatched := false)];
      SettleRelease(op);
      jobs := jobs + [Dispatch(r, g, Error, 0, total)];
    }

    method Publish(r: nat, op: nat, g: nat, state: PumpState, packError: Option<FileApiError>)
      requires Valid()
      modifies this, io
      ensures Valid() && State() == Readers.Publish(old(State()), r, op, g, state, packError)
    {
      hide Readers.SettleRelease, Readers.FailOperation;
      if state.kind.DataUrl? && packError.Some? {
        FailOperation(r, op, g, state.total, Core(packError.value));
        return;
      }
      if r >= |natives| || natives[r].generation != g {
        return;
      }
      var result := Packaged(state.kind, state.buffered);
      natives := natives[r := natives[r].(ready := Done, result := Some(result), error := None,
                                          terminalDispatched := false, loaded := state.total)];
      published := published + [Publication(g, result, |events|)];
      SettleRelease(op);
      jobs := jobs + [Dispatch(r, g, Load, state.total, state.total)];
    }

    // ----------------------------------------------------------------- pump

    /** `dispatch_event_now`: fires only for a loading reader of this generation. */
    method TryFire(r: nat, g: nat, kind: EventKind, loaded: nat, total: nat, now: int) returns (fired: bool)
      requires Valid()
      modifies this`events
      ensures fired == Fires(old(Tables()), r, g)
      ensures State() == if fired then Fired(old(State()), r, g, kind, loaded, total, now) else old(State())
    {
      if r >= |natives| || natives[r].generation != g {
        return false;
      }
      if !natives[r].ready.Loading? || natives[r].terminalDispatched {
        return false;
      }
      events := events + [Event(r, g, kind, loaded, total, now)];
      fired := true;
    }

    method RunPump(r: nat, g: nat, op: nat, state: PumpState, chunk: ChunkKind, now: int,
                   submit: Option<SubmitError>, packError: Option<FileApiError>) returns (frame: Option<Frame>)
      requires Valid()
      modifies this, io
      ensures Valid() && (State(), frame) == PumpEnter(old(State()), r, g, op, state, chunk, now, submit, packError)
    {
      hide Readers.FinishAtEof, Readers.ApplyChunk, Readers.FailOperation;
      frame := None;
      if r >= |natives| || natives[r].generation != g {
        return;
      }
      if io.shutdown {
        ReleasePending(op);
        return;
      }
      if !state.loadstartSent {
        frame := RunLoadstart(r, g, op, state.(loadstartSent := true), chunk, now);
        return;
      }
      match chunk {
        case Failed(error) => FailOperation(r, op, g, state.total, Core(error));
        case Eof => frame := FinishAtEof(r, g, op, state, now, packError);
        case Chunk(bytes) => frame := ApplyChunk(r, g, op, state, bytes, now, submit, packError);
      }
    }

    /** A pump that runs after shutdown gives its root back. */
    method ReleasePending(op: nat)
      requires Valid()
      modifies this`pending, this`active, io
      ensures Valid()
      ensures State() == var m := old(State());
        if op in m.f.pending
        then Room(Bridge.Unreserve(m.b, op).0, m.f.(pending := m.f.pending - {op}, active := Less(m.f.active)))
        else m
    {
      if op in pending {
        pending := pending - {op};
        active := Less(active);
        GiveBack(op);
      }
    }

    method RunLoadstart(r: nat, g: nat, op: nat, sent: PumpState, chunk: ChunkKind, now: int) returns (frame: Option<Frame>)
      requires Valid()
      modifies this
      ensures Valid()
      ensures var m1 := Stored(old(State()), op, sent);
        (State(), frame)
        == if Fires(m1.f, r, g)
           then (Fired(m1, r, g, LoadStart, 0, sent.total, now), Some(Frame(r, g, op, now, AfterLoadstart(sent, chunk))))
           else (Readers.ResumeLoadstart(m1, r, g, op, sent, chunk), None)
    {
      pumps := pumps[op := sent];
      var fired := TryFire(r, g, LoadStart, 0, sent.total, now);
      if fired {
        return Some(Frame(r, g, op, now, AfterLoadstart(sent, chunk)));
      }
      ResumeLoadstart(r, g, op, sent, chunk);
      frame := None;
    }

    method ResumeLoadstart(r: nat, g: nat, op: nat, state: PumpState, chunk: ChunkKind)
      requires Valid()
      modifies this
      ensures Valid() && State() == Readers.ResumeLoadstart(old(State()), r, g, op, state, chunk)
    {
      if r >= |natives| || natives[r].generation != g {
        return;
      }
      var latest := state;
      if op in pumps {
        latest := latest.(lastProgressAt := pumps[op].lastProgressAt, finalProgressSent := pumps[op].finalProgressSent);
      }
      jobs := jobs + [Pump(r, g, op, latest, chunk)];
    }

    method ApplyChunk(r: nat, g: nat, op: nat, state: PumpState, bytes: seq<Byte>, now: int,
                      submit: Option<SubmitError>, packError: Option<FileApiError>) returns (frame: Option<Frame>)
      requires Valid() && Current(Tables(), r, g)
      modifies this, io
      ensures Valid() && (State(), frame) == Readers.ApplyChunk(old(State()), r, g, op, state, bytes, now, submit, packError)
    {
      hide Readers.AfterChunk, Readers.ResumeProgress, Fed, Due;
      var fed := Fed(state, bytes);
      natives := natives[r := natives[r].(loaded := fed.loaded)];
      if Due(fed.lastProgressAt, now) && fed.loaded < fed.total {
        frame := ReportProgress(r, g, op, fed.(lastProgressAt := now), now, submit, packError);
      } else {
        frame := AfterChunk(r, g, op, fed, now, submit, packError);
      }
    }

    /** A progress event that is due; if it does not fire the pump goes straight on. */
    method ReportProgress(r: nat, g: nat, op: nat, marked: PumpState, now: int,
                          submit: Option<SubmitError>, packError: Option<FileApiError>) returns (frame: Option<Frame>)
      requires Valid()
      modifies this, io
      ensures Valid()
      ensures var m := old(State());
        (State(), frame)
        == if Fires(m.f, r, g)
           then (Fired(m, r, g, Progress, marked.loaded, marked.total, now), Some(Frame(r, g, op, now, AfterProgress(marked))))
           else Readers.ResumeProgress(m, r, g, op, marked, now, submit, packError)
    {
      hide Readers.ResumeProgress;
      var fired := TryFire(r, g, Progress, marked.loaded, marked.total, now);
      if fired {
        return Some(Frame(r, g, op, now, AfterProgress(marked)));
      }
      frame := ResumeProgress(r, g, op, marked, now, submit, packError);
    }

    method ResumeProgress(r: nat, g: nat, op: nat, state: PumpState, now: int,
                          submit: Option<SubmitError>, packError: Option<FileApiError>) returns (frame: Option<Frame>)
      requires Valid()
      modifies this, io
      ensures Valid() && (State(), frame) == Readers.ResumeProgress(old(State()), r, g, op, state, now, submit, packError)
    {
      hide Readers.AfterChunk;
      if r >= |natives| || natives[r].generation != g || io.shutdown {
        return None;
      }
      frame := AfterChunk(r, g, op, state, now, submit, packError);
    }

    method AfterChunk(r: nat, g: nat, op: nat, state: PumpState, now: int,
                      submit: Option<SubmitError>, packError: Option<FileApiError>) returns (frame: Option<Frame>)
      requires Valid()
      modifies this, io
      ensures Valid() && (State(), frame) == Readers.AfterChunk(old(State()), r, g, op, state, now, submit, packError)
    {
      hide Readers.FinishAtEof, Readers.SubmitNext;
      if state.loaded >= state.total {
        frame := FinishAtEof(r, g, op, state, now, packError);
        return;
      }
      SubmitNextChunk(r, g, op, state, submit);
      pumps := pumps[op := state];
      frame := None;
    }

    method SubmitNextChunk(r: nat, g: nat, op: nat, state: PumpState, submit: Option<SubmitError>)
      requires Valid()
      modifies this, io
      ensures Valid() && State() == SubmitNext(old(State()), r, g, op, state, submit)
    {
      hide Readers.FailOperation;
      if op !in io.tokens || op !in payloads {
        return;
      }
      if submit.Some? {
        FailOperation(r, op, g, state.total, Core(SubmitFailure(submit.value)));
        return;
      }
      var remaining := if state.loaded <= state.total then state.total - state.loaded else 0;
      tasks := tasks + [Task(op, g, payloads[op], state.loaded, Min(state.chunkSize, remaining))];
    }

    method FinishAtEof(r: nat, g: nat, op: nat, state: PumpState, now: int, packError: Option<FileApiError>)
      returns (frame: Option<Frame>)
      requires Valid()
      modifies this, io
      ensures Valid() && (State(), frame) == Readers.FinishAtEof(old(State()), r, g, op, state, now, packError)
    {
      hide Readers.Publish;
      if r >= |natives| || natives[r].generation != g {
        return None;
      }
      if !state.finalProgressSent {
        var fired := TryFire(r, g, Progress, state.total, state.total, now);
        if fired {
          return Some(Frame(r, g, op, now, AfterFinal(state)));
        }
        if io.shutdown {
          return None;
        }
      }
      Publish(r, op, g, state, packError);
      frame := None;
    }

    method ResumeFinal(r: nat, g: nat, op: nat, state: PumpState, packError: Option<FileApiError>)
      requires Valid()
      modifies this, io
      ensures Valid() && State() == Readers.ResumeFinal(old(State()), r, g, op, state, packError)
    {
      hide Readers.Publish;
      if r >= |natives| || natives[r].generation != g || io.shutdown {
        return;
      }
      Publish(r, op, g, state, packError);
    }

    // ------------------------------------------------------------- dispatch

    method RunDispatch(r: nat, g: nat, kind: EventKind, loaded: nat, total: nat, now: int) returns (frame: Option<Frame>)
      requires Valid()
      modifies this
      ensures Valid() && (State(), frame) == DispatchEnter(old(State()), r, g, kind, loaded, total, now)
    {
      if r >= |natives| || natives[r].generation != g || io.shutdown {
        return None;
      }
      var n := natives[r];
      if kind.Load? || kind.Error? {
        if n.terminalDispatched || !n.ready.Done? {
          return None;
        }
        if kind.Error? && n.error.None? {
          return None;
        }
        events := events + [Event(r, g, kind, loaded, total, now)];
        return Some(Frame(r, g, 0, now, AfterTerminal(loaded, total)));
      }
      if kind.LoadEnd? && n.terminalDispatched {
        events := events + [Event(r, g, LoadEnd, loaded, total, now)];
        return Some(Frame(r, g, 0, now, AfterLoadend));
      }
      frame := None;
    }

    method ResumeTerminal(r: nat, g: nat, loaded: nat, total: nat)
      requires Valid()
      modifies this
      ensures Valid() && State() == Readers.ResumeTerminal(old(State()), r, g, loaded, total)
    {
      if r >= |natives| || natives[r].generation != g {
        return;
      }
      natives := natives[r := natives[r].(terminalDispatched := true)];
      jobs := jobs + [Dispatch(r, g, LoadEnd, loaded, total)];
    }

    // ----------------------------------------------------------------- jobs

    method PopJob() returns (job: Job)
      requires jobs != []
      modifies this`jobs
      ensures job == old(jobs)[0] && jobs == old(jobs)[1..]
    {
      job := jobs[0];
      jobs := jobs[1..];
    }

    /** `run_reading_job`, up to its dispatch. */
    method RunJob(job: Job, now: int, submit: Option<SubmitError>, packError: Option<FileApiError>)
      returns (frame: Option<Frame>)
      requires Valid()
      modifies this, io
      ensures Valid() && (State(), frame) == JobEnter(old(State()), job, now, submit, packError)
    {
      hide PumpEnter, DispatchEnter;
      match job {
        case Pump(r, g, op, state, chunk) =>
          frame := RunPump(r, g, op, state, chunk, now, submit, packError);
        case Dispatch(r, g, kind, loaded, total) =>
          frame := RunDispatch(r, g, kind, loaded, total, now);
      }
    }

    /** What was waiting for the handlers of an event. */
    method ResumeFrame(frame: Frame, submit: Option<SubmitError>, packError: Option<FileApiError>)
      returns (next: Option<Frame>)
      requires Valid()
      modifies this, io
      ensures Valid() && (State(), next) == Resume(old(State()), frame, submit, packError)
    {
      hide Readers.ResumeLoadstart, Readers.ResumeProgress, Readers.ResumeFinal, Readers.ResumeTerminal, Readers.ResumeAbort;
      var Frame(r, g, op, now, pause) := frame;
      next := None;
      match pause {
        case AfterLoadstart(state, chunk) => ResumeLoadstart(r, g, op, state, chunk);
        case AfterProgress(state) => next := ResumeProgress(r, g, op, state, now, submit, packError);
        case AfterFinal(state) => ResumeFinal(r, g, op, state, packError);
        case AfterTerminal(loaded, total) => ResumeTerminal(r, g, loaded, total);
        case AfterAbort(loaded, total) => next := ResumeAbort(r, g, now, loaded, total);
        case AfterLoadend =>
      }
    }

    method NewReader()
      requires Valid()
      modifies this`natives
      ensures Valid() && State() == old(State()).(f := old(Tables()).(natives := old(natives) + [FRESH_NATIVE]))
    {
      natives := natives + [FRESH_NATIVE];
    }

    /** A worker answers outstanding task `i`. */
    method WorkerAnswers(i: nat, failure: Option<FileApiError>)
      requires Valid() && i < |tasks|
      modifies this`tasks, io
      ensures Valid() && State() == Readers.WorkerAnswers(old(State()), i, failure)
    {
      var t := tasks[i];
      var done := ChunkCompletion(t.op, t.generation, ChunkAnswer(t.blob, t.offset, t.len, failure));
      PushReaderKeeps(io.State(), done);
      tasks := tasks[..i] + tasks[i + 1..];
      io.PushReaderCompletion(done);
    }

    // -------------------------------------------------------------- poll_io

    /** Returns how many jobs it queued: one or none. */
    method SettleCompletion(done: ChunkCompletion) returns (settled: nat)
      requires Valid()
      modifies this`jobs, this`pumps
      ensures Valid() && State() == Settle(old(State()), done)
      ensures settled == if |jobs| > |old(jobs)| then 1 else 0
    {
      var op := done.op;
      if op !in pending || pending[op].generation != done.generation {
        return 0;
      }
      if io.shutdown {
        return 0;
      }
      var r := pending[op].reader;
      if r >= |natives| || natives[r].generation != done.generation {
        return 0;
      }
      if op !in pumps {
        return 0;
      }
      jobs := jobs + [Pump(r, done.generation, op, pumps[op], done.kind)];
      pumps := pumps - {op};
      settled := 1;
    }

    /** What a drain does with a completion once the runtime is shut down. */
    method DropForShutdown(op: nat)
      requires Valid()
      modifies this, io
      ensures Valid() && State() == Readers.DropForShutdown(old(State()), op)
    {
      GiveBack(op);
      payloads := payloads - {op};
      pending := pending - {op};
      pumps := pumps - {op};
      active := Less(active);
    }

    method ShutDown()
      modifies this
      ensures Tables() == ShutDownReaders(old(Tables()))
    {
      pending := map[];
      pumps := map[];
      payloads := map[];
      active := 0;
    }
  }
}
