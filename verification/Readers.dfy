/**
  The FileReader machine. A `Room` is the bridge with the per-context reader
  tables. Every function runs up to the next event dispatch: it returns the
  `Frame` that waits while handlers run, and `Resume` picks the frame up again.
  Handlers themselves are scripts of public calls, in module `Context`.
  Clock readings and what the executor and the packaging answer are parameters.
*/
module Readers {
  import opened Common
  import opened Bridge

  datatype Ready = Empty | Loading | Done

  /** The byte flavours; text flavours rest on a decoding library. */
  datatype Kind = ArrayBuffer | BinaryString | DataUrl

  datatype Packaged = Packaged(kind: Kind, bytes: seq<Byte>)

  datatype Problem = Quota | Closed | TooLong | Core(error: FileApiError)

  /** Mutable state of one FileReader object. */
  datatype Native = Native(
    ready: Ready,
    result: Option<Packaged>,
    error: Option<Problem>,
    generation: nat,
    terminalDispatched: bool,
    total: nat,
    loaded: nat)

  /** Packaging state that travels from job to job. */
  datatype PumpState = PumpState(
    total: nat,
    chunkSize: nat,
    kind: Kind,
    loaded: nat,
    lastProgressAt: int,
    loadstartSent: bool,
    buffered: seq<Byte>,
    finalProgressSent: bool)

  datatype PendingOp = PendingOp(reader: nat, generation: nat)

  datatype Task = Task(op: nat, generation: nat, blob: seq<Byte>, offset: nat, len: nat)

  datatype EventKind = LoadStart | Progress | Load | Error | Abort | LoadEnd

  datatype Event = Event(reader: nat, generation: nat, kind: EventKind, loaded: nat, total: nat, at: int)

  /** One queued FileReading job. */
  datatype Job =
    | Pump(reader: nat, generation: nat, op: nat, state: PumpState, chunk: ChunkKind)
    | Dispatch(reader: nat, generation: nat, kind: EventKind, loaded: nat, total: nat)

  datatype Publication = Publication(generation: nat, result: Packaged, at: nat)

  /**
    `log` lists the dispatched events, `asked` the blob each generation reads
    and `published` the results made visible; the code does not keep those.
  */
  datatype ReaderState = ReaderState(
    chunkSize: nat,
    natives: seq<Native>,
    active: nat,
    nextGeneration: nat,
    pending: map<nat, PendingOp>,
    pumps: map<nat, PumpState>,
    payloads: map<nat, seq<Byte>>,
    tasks: seq<Task>,
    jobs: seq<Job>,
    log: seq<Event>,
    asked: map<nat, seq<Byte>>,
    published: seq<Publication>)

  datatype Room = Room(b: BridgeState, f: ReaderState)

  /** What a suspended job or `abort()` call still has to do. */
  datatype Pause =
    | AfterLoadstart(state: PumpState, chunk: ChunkKind)
    | AfterProgress(state: PumpState)
    | AfterFinal(state: PumpState)
    | AfterTerminal(loaded: nat, total: nat)
    | AfterAbort(loaded: nat, total: nat)
    | AfterLoadend

  datatype Frame = Frame(reader: nat, generation: nat, op: nat, now: int, pause: Pause)

  const PROGRESS_MS: int := 50

  const FRESH_NATIVE := Native(Empty, None, None, 0, false, 0, 0)

  function InitReaders(chunkSize: nat): ReaderState {
    ReaderState(chunkSize, [], 0, 1, map[], map[], map[], [], [], [], map[], [])
  }

  // ------------------------------------------------------------ small updates

  predicate Current(f: ReaderState, r: nat, g: nat) {
    r < |f.natives| && f.natives[r].generation == g
  }

  function WithNative(m: Room, r: nat, n: Native): Room
    requires r < |m.f.natives|
  {
    m.(f := m.f.(natives := m.f.natives[r := n]))
  }

  function Enqueued(m: Room, j: Job): Room {
    m.(f := m.f.(jobs := m.f.jobs + [j]))
  }

  function Fired(m: Room, r: nat, g: nat, kind: EventKind, loaded: nat, total: nat, at: int): Room {
    m.(f := m.f.(log := m.f.log + [Event(r, g, kind, loaded, total, at)]))
  }

  function Stored(m: Room, op: nat, state: PumpState): Room {
    m.(f := m.f.(pumps := m.f.pumps[op := state]))
  }

  function Less(n: nat): nat {
    if n == 0 then 0 else n - 1
  }

  // ------------------------------------------------------------- start of reads

  datatype StartResult = InvalidState | BadChunkSize | Accepted

  /** `fail_fast`: an error without a slot. */
  function FailFast(m: Room, r: nat, total: nat, problem: Problem): Room
    requires r < |m.f.natives|
  {
    var g := m.f.nextGeneration;
    var m1 := m.(f := m.f.(nextGeneration := g + 1));
    Enqueued(WithNative(m1, r, Native(Done, None, Some(problem), g, false, total, 0)),
             Dispatch(r, g, Error, 0, total))
  }

  /** `start_read`. */
  function StartRead(m: Room, r: nat, blob: seq<Byte>, kind: Kind, submit: Option<SubmitError>): (Room, StartResult)
    requires r < |m.f.natives|
  {
    if m.f.natives[r].ready.Loading? then (m, InvalidState)
    else if m.b.shutdown then (FailFast(m, r, |blob|, Closed), Accepted)
    else if m.f.active >= m.b.limit then (FailFast(m, r, |blob|, Quota), Accepted)
    else
      var (b1, reserved) := Reserve(m.b);
      match reserved
      case Err(_) => (FailFast(m.(b := b1), r, |blob|, Quota), Accepted)
      case Ok(op) => Begin(m.(b := b1), r, op, blob, kind, submit)
  }

  /** `start_read` with slot `op` in hand: counters move, then chunk size and executor have their say. */
  function Begin(m: Room, r: nat, op: nat, blob: seq<Byte>, kind: Kind, submit: Option<SubmitError>): (Room, StartResult)
    requires r < |m.f.natives|
  {
    var g := m.f.nextGeneration;
    var m1 := m.(f := m.f.(nextGeneration := g + 1, active := m.f.active + 1));
    if !ChunkInRange(m.f.chunkSize) then
      (Room(Unreserve(m.b, op).0, m1.f.(active := Less(m1.f.active))), BadChunkSize)
    else
      (if submit.Some? then RefusedStart(m1, r, op, g, blob, submit.value)
       else Started(m1, r, op, g, blob, kind), Accepted)
  }

  /** The tables once the first chunk request is with the executor. */
  function Started(m: Room, r: nat, op: nat, g: nat, blob: seq<Byte>, kind: Kind): Room
    requires r < |m.f.natives|
  {
    var state := PumpState(|blob|, m.f.chunkSize, kind, 0, I64_MIN, false, [], false);
    var m1 := WithNative(m, r, Native(Loading, None, None, g, false, |blob|, 0));
    m1.(f := m1.f.(pending := m.f.pending[op := PendingOp(r, g)],
                   payloads := m.f.payloads[op := blob],
                   pumps := m.f.pumps[op := state],
                   asked := m.f.asked[g := blob],
                   tasks := m.f.tasks + [Task(op, g, blob, 0, Min(m.f.chunkSize, |blob|))]))
  }

  /** The executor refused: everything registered so far goes again, then `error`. */
  function RefusedStart(m: Room, r: nat, op: nat, g: nat, blob: seq<Byte>, error: SubmitError): Room
    requires r < |m.f.natives|
  {
    var m1 := Room(Unreserve(m.b, op).0,
                   m.f.(pending := m.f.pending - {op}, payloads := m.f.payloads - {op},
                        pumps := m.f.pumps - {op}, active := Less(m.f.active)));
    Enqueued(WithNative(m1, r, Native(Done, None, Some(Core(SubmitFailure(error))), g, false, |blob|, 0)),
             Dispatch(r, g, Error, 0, |blob|))
  }

  /** `readAsDataURL`: the length of the URL is checked before anything starts. */
  function StartDataUrl(m: Room, r: nat, blob: seq<Byte>, fits: bool, submit: Option<SubmitError>): (Room, StartResult)
    requires r < |m.f.natives|
  {
    if m.f.natives[r].ready.Loading? then (m, InvalidState)
    else if m.f.active >= m.b.limit then (FailFast(m, r, |blob|, Quota), Accepted)
    else if !fits then (FailFast(m, r, |blob|, TooLong), Accepted)
    else StartRead(m, r, blob, DataUrl, submit)
  }

  // -------------------------------------------------------------------- abort

  predicate HasOp(pending: map<nat, PendingOp>, r: nat) {
    exists op :: op in pending && pending[op].reader == r
  }

  /** `pending_operation_for_reader`. */
  ghost function OpOf(pending: map<nat, PendingOp>, r: nat): (op: nat)
    requires HasOp(pending, r)
    ensures op in pending && pending[op].reader == r
  {
    var op :| op in pending && pending[op].reader == r;
    op
  }

  /** Slot, payload, root and packaging state of `op` go; the counter is not touched. */
  function Dropped(m: Room, op: nat): Room {
    Room(Unreserve(m.b, op).0,
         m.f.(payloads := m.f.payloads - {op}, pending := m.f.pending - {op}, pumps := m.f.pumps - {op}))
  }

  /** `abort()`, up to the dispatch of `abort`. */
  ghost function AbortCall(m: Room, r: nat, now: int): (Room, Option<Frame>)
    requires r < |m.f.natives|
  {
    var n := m.f.natives[r];
    if !n.ready.Loading? then (WithNative(m, r, n.(result := None)), None)
    else
      var g := m.f.nextGeneration;
      var m1 := m.(f := m.f.(nextGeneration := g + 1, active := Less(m.f.active)));
      var m2 := if HasOp(m.f.pending, r) then Dropped(m1, OpOf(m.f.pending, r)) else m1;
      var m3 := WithNative(m2, r, Native(Done, None, None, g, false, n.total, n.loaded));
      if m3.b.shutdown then (m3, None)
      else (Fired(m3, r, g, Abort, n.loaded, n.total, now),
            Some(Frame(r, g, 0, now, AfterAbort(n.loaded, n.total))))
  }

  /** `dispatch_terminal_now`, between `abort` and `loadend`. */
  function ResumeAbort(m: Room, r: nat, g: nat, now: int, loaded: nat, total: nat): (Room, Option<Frame>) {
    if !Current(m.f, r, g) then (m, None)
    else
      var m1 := WithNative(m, r, m.f.natives[r].(terminalDispatched := true));
      if m.b.shutdown then (m1, None)
      else (Fired(m1, r, g, LoadEnd, loaded, total, now), Some(Frame(r, g, 0, now, AfterLoadend)))
  }

  // ---------------------------------------------------------- terminal settling

  /** `settle_success_release` / `settle_error_release`. */
  function SettleRelease(m: Room, op: nat): Room {
    if op in m.f.pending then
      Room(Unreserve(m.b, op).0,
           m.f.(pending := m.f.pending - {op}, active := Less(m.f.active),
                payloads := m.f.payloads - {op}, pumps := m.f.pumps - {op}))
    else m.(f := m.f.(pumps := m.f.pumps - {op}))
  }

  /** `fail_operation`. */
  function FailOperation(m: Room, r: nat, op: nat, g: nat, total: nat, problem: Problem): Room {
    if !Current(m.f, r, g) then m
    else
      var n := m.f.natives[r].(ready := Done, result := None, error := Some(problem), terminalDispatched := false);
      Enqueued(SettleRelease(WithNative(m, r, n), op), Dispatch(r, g, Error, 0, total))
  }

  /** The end of `finish_at_eof`: package, publish, release, enqueue `load`. */
  function Publish(m: Room, r: nat, op: nat, g: nat, state: PumpState, packError: Option<FileApiError>): Room {
    if state.kind.DataUrl? && packError.Some? then FailOperation(m, r, op, g, state.total, Core(packError.value))
    else if !Current(m.f, r, g) then m
    else
      var result := Packaged(state.kind, state.buffered);
      var n := m.f.natives[r].(ready := Done, result := Some(result), error := None,
                               terminalDispatched := false, loaded := state.total);
      var m1 := WithNative(m, r, n);
      var m2 := m1.(f := m1.f.(published := m1.f.published + [Publication(g, result, |m1.f.log|)]));
      Enqueued(SettleRelease(m2, op), Dispatch(r, g, Load, state.total, state.total))
  }

  // --------------------------------------------------------------------- pump

  /** `dispatch_event_now` fires only for a loading reader of this generation. */
  predicate Fires(f: ReaderState, r: nat, g: nat) {
    Current(f, r, g) && f.natives[r].ready.Loading? && !f.natives[r].terminalDispatched
  }

  /** `run_pump`, up to its first dispatch. */
  function PumpEnter(m: Room, r: nat, g: nat, op: nat, state: PumpState, chunk: ChunkKind, now: int,
                     submit: Option<SubmitError>, packError: Option<FileApiError>): (Room, Option<Frame>)
  {
    if !Current(m.f, r, g) then (m, None)
    else if m.b.shutdown then
      (if op in m.f.pending
       then Room(Unreserve(m.b, op).0, m.f.(pending := m.f.pending - {op}, active := Less(m.f.active)))
       else m, None)
    else if !state.loadstartSent then
      var sent := state.(loadstartSent := true);
      var m1 := Stored(m, op, sent);
      if Fires(m1.f, r, g) then
        (Fired(m1, r, g, LoadStart, 0, sent.total, now), Some(Frame(r, g, op, now, AfterLoadstart(sent, chunk))))
      else (ResumeLoadstart(m1, r, g, op, sent, chunk), None)
    else match chunk
      case Failed(error) => (FailOperation(m, r, op, g, state.total, Core(error)), None)
      case Eof => FinishAtEof(m, r, g, op, state, now, packError)
      case Chunk(bytes) => ApplyChunk(m, r, g, op, state, bytes, now, submit, packError)
  }

  /** After `loadstart` the chunk waits for one more turn of the job queue. */
  function ResumeLoadstart(m: Room, r: nat, g: nat, op: nat, state: PumpState, chunk: ChunkKind): Room {
    if !Current(m.f, r, g) then m
    else
      var latest := if op in m.f.pumps
                    then state.(lastProgressAt := m.f.pumps[op].lastProgressAt,
                                finalProgressSent := m.f.pumps[op].finalProgressSent)
                    else state;
      Enqueued(m, Pump(r, g, op, latest, chunk))
  }

  /** The packaging state with one more chunk. */
  function Fed(state: PumpState, bytes: seq<Byte>): PumpState {
    state.(loaded := Min(state.loaded + |bytes|, state.total), buffered := state.buffered + bytes)
  }

  /** At most one progress event every 50 ms; a subtraction that overflows is not due. */
  predicate Due(last: int, now: int) {
    last == I64_MIN || (PROGRESS_MS <= now - last <= I64_MAX)
  }

  function ApplyChunk(m: Room, r: nat, g: nat, op: nat, state: PumpState, bytes: seq<Byte>, now: int,
                      submit: Option<SubmitError>, packError: Option<FileApiError>): (Room, Option<Frame>)
    requires Current(m.f, r, g)
  {
    var fed := Fed(state, bytes);
    var m1 := WithNative(m, r, m.f.natives[r].(loaded := fed.loaded));
    if Due(fed.lastProgressAt, now) && fed.loaded < fed.total then
      var marked := fed.(lastProgressAt := now);
      if Fires(m1.f, r, g) then
        (Fired(m1, r, g, Progress, fed.loaded, fed.total, now), Some(Frame(r, g, op, now, AfterProgress(marked))))
      else ResumeProgress(m1, r, g, op, marked, now, submit, packError)
    else AfterChunk(m1, r, g, op, fed, now, submit, packError)
  }

  function ResumeProgress(m: Room, r: nat, g: nat, op: nat, state: PumpState, now: int,
                          submit: Option<SubmitError>, packError: Option<FileApiError>): (Room, Option<Frame>)
  {
    if !Current(m.f, r, g) || m.b.shutdown then (m, None)
    else AfterChunk(m, r, g, op, state, now, submit, packError)
  }

  function AfterChunk(m: Room, r: nat, g: nat, op: nat, state: PumpState, now: int,
                      submit: Option<SubmitError>, packError: Option<FileApiError>): (Room, Option<Frame>)
  {
    if state.loaded >= state.total then FinishAtEof(m, r, g, op, state, now, packError)
    else (Stored(SubmitNext(m, r, g, op, state, submit), op, state), None)
  }

  /** `submit_next_chunk`. */
  function SubmitNext(m: Room, r: nat, g: nat, op: nat, state: PumpState, submit: Option<SubmitError>): Room {
    if op !in m.b.tokens || op !in m.f.payloads then m
    else if submit.Some? then FailOperation(m, r, op, g, state.total, Core(SubmitFailure(submit.value)))
    else
      var remaining := if state.loaded <= state.total then state.total - state.loaded else 0;
      m.(f := m.f.(tasks := m.f.tasks
        + [Task(op, g, m.f.payloads[op], state.loaded, Min(state.chunkSize, remaining))]))
  }

  function FinishAtEof(m: Room, r: nat, g: nat, op: nat, state: PumpState, now: int,
                       packError: Option<FileApiError>): (Room, Option<Frame>)
  {
    if !Current(m.f, r, g) then (m, None)
    else if !state.finalProgressSent && Fires(m.f, r, g) then
      (Fired(m, r, g, Progress, state.total, state.total, now), Some(Frame(r, g, op, now, AfterFinal(state))))
    else if !state.finalProgressSent && m.b.shutdown then (m, None)
    else (Publish(m, r, op, g, state, packError), None)
  }

  function ResumeFinal(m: Room, r: nat, g: nat, op: nat, state: PumpState, packError: Option<FileApiError>): Room {
    if !Current(m.f, r, g) || m.b.shutdown then m
    else Publish(m, r, op, g, state, packError)
  }

  // ----------------------------------------------------------------- dispatch

  predicate IsTerminal(kind: EventKind) {
    kind.Load? || kind.Error?
  }

  /** `run_dispatch`, up to its dispatch. */
  function DispatchEnter(m: Room, r: nat, g: nat, kind: EventKind, loaded: nat, total: nat, now: int):
    (Room, Option<Frame>)
  {
    if !Current(m.f, r, g) || m.b.shutdown then (m, None)
    else
      var n := m.f.natives[r];
      if IsTerminal(kind) then
        if n.terminalDispatched || !n.ready.Done? || (kind.Error? && n.error.None?) then (m, None)
        else (Fired(m, r, g, kind, loaded, total, now), Some(Frame(r, g, 0, now, AfterTerminal(loaded, total))))
      else if kind.LoadEnd? && n.terminalDispatched then
        (Fired(m, r, g, LoadEnd, loaded, total, now), Some(Frame(r, g, 0, now, AfterLoadend)))
      else (m, None)
  }

  function ResumeTerminal(m: Room, r: nat, g: nat, loaded: nat, total: nat): Room {
    if !Current(m.f, r, g) then m
    else Enqueued(WithNative(m, r, m.f.natives[r].(terminalDispatched := true)),
                  Dispatch(r, g, LoadEnd, loaded, total))
  }

  /** `run_reading_job`, up to its first dispatch. */
  function JobEnter(m: Room, j: Job, now: int, submit: Option<SubmitError>, packError: Option<FileApiError>):
    (Room, Option<Frame>)
  {
    match j
    case Pump(r, g, op, state, chunk) => PumpEnter(m, r, g, op, state, chunk, now, submit, packError)
    case Dispatch(r, g, kind, loaded, total) => DispatchEnter(m, r, g, kind, loaded, total, now)
  }

  /** What follows once the handlers of the event have returned. */
  function Resume(m: Room, fr: Frame, submit: Option<SubmitError>, packError: Option<FileApiError>):
    (Room, Option<Frame>)
  {
    var Frame(r, g, op, now, pause) := fr;
    match pause
    case AfterLoadstart(state, chunk) => (ResumeLoadstart(m, r, g, op, state, chunk), None)
    case AfterProgress(state) => ResumeProgress(m, r, g, op, state, now, submit, packError)
    case AfterFinal(state) => (ResumeFinal(m, r, g, op, state, packError), None)
    case AfterTerminal(loaded, total) => (ResumeTerminal(m, r, g, loaded, total), None)
    case AfterAbort(loaded, total) => ResumeAbort(m, r, g, now, loaded, total)
    case AfterLoadend => (m, None)
  }

  // ------------------------------------------------------- workers and polling

  /** What a worker answers for `task`. */
  function Answer(task: Task, failure: Option<FileApiError>): ChunkKind {
    ChunkAnswer(task.blob, task.offset, task.len, failure)
  }

  function WorkerAnswers(m: Room, i: nat, failure: Option<FileApiError>): Room
    requires i < |m.f.tasks|
  {
    var t := m.f.tasks[i];
    Room(PushReader(m.b, ChunkCompletion(t.op, t.generation, Answer(t, failure))),
         m.f.(tasks := m.f.tasks[..i] + m.f.tasks[i + 1..]))
  }

  /** `settle_reader_completion`: at most one pump job per completion. */
  function Settle(m: Room, done: ChunkCompletion): Room {
    var op := done.op;
    if op !in m.f.pending || m.f.pending[op].generation != done.generation then m
    else if m.b.shutdown then m
    else
      var r := m.f.pending[op].reader;
      if !Current(m.f, r, done.generation) || op !in m.f.pumps then m
      else
        Enqueued(m.(f := m.f.(pumps := m.f.pumps - {op})),
                 Pump(r, done.generation, op, m.f.pumps[op], done.kind))
  }

  /** A completion drained while the runtime shut down gives its slot back and is dropped with its root. */
  function DropForShutdown(m: Room, op: nat): Room {
    Room(Unreserve(m.b, op).0,
         m.f.(pending := m.f.pending - {op}, payloads := m.f.payloads - {op}, pumps := m.f.pumps - {op},
              active := Less(m.f.active)))
  }

  /** `drop_all_reader_state_for_shutdown`, after the bridge closer ran. */
  function ShutDownReaders(f: ReaderState): ReaderState {
    f.(pending := map[], pumps := map[], payloads := map[], active := 0)
  }
}
