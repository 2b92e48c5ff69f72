/**
  The demand-driven stream machine. A `World` is the bridge together with the
  per-context stream tables; every function is one native call, one drained
  completion or one environment step. Choices the code does not make itself
  (does the executor accept a task, does packaging fail, what does a worker
  answer) are parameters.
*/
module Streams {
  import opened Common
  import opened Bridge
  import Utf8

  datatype Mode = BytesMode | TextMode

  /** The shared state of one stream epoch. `blob` is the immutable content. */
  datatype Cell = Cell(
    blob: seq<Byte>,
    hasData: bool,
    loaded: nat,
    chunkSize: nat,
    mode: Mode,
    pending: seq<Byte>,
    locked: bool,
    cancelled: bool,
    errored: Option<FileApiError>,
    queue: seq<nat>,
    nextSeq: nat,
    generation: nat,
    inFlight: bool,
    streamRegistered: bool,
    readerRegistered: bool,
    streamAlive: bool,
    readerAlive: bool,
    leaseTerminal: bool,
    leaseReleased: bool)

  /** Live root of one stream operation. */
  datatype OpEntry = OpEntry(generation: nat, terminal: bool, released: bool)

  /** An unsettled `read()`, keyed by operation and sequence number. */
  datatype ReadKey = ReadKey(op: nat, number: nat)
  datatype PendingRead = PendingRead(mode: Mode, generation: nat)

  /** Native data of one reader object; `collected` once JS cannot reach it. */
  datatype ReaderObject = ReaderObject(op: nat, released: bool, signalled: bool, collected: bool)

  /** A chunk request a worker has not answered yet. */
  datatype Task = Task(op: nat, generation: nat, offset: nat, len: nat)

  datatype Outcome =
    | Value(bytes: seq<Byte>)
    | Text(text: Utf8.Text)
    | Done
    | Rejected(error: FileApiError)

  /** One settled promise, in the order the settlement jobs are queued. */
  datatype Settlement = Settlement(op: nat, number: nat, outcome: Outcome)

  datatype StreamState = StreamState(
    chunkSize: nat,
    cells: map<nat, Cell>,
    ops: map<nat, OpEntry>,
    demands: map<ReadKey, PendingRead>,
    errors: map<nat, FileApiError>,
    payloads: map<nat, seq<Byte>>,
    readers: seq<ReaderObject>,
    tasks: seq<Task>,
    log: seq<Settlement>)

  datatype World = World(b: BridgeState, s: StreamState)

  function InitStreams(chunkSize: nat): StreamState {
    StreamState(chunkSize, map[], map[], map[], map[], map[], [], [], [])
  }

  // ------------------------------------------------------------ small updates

  function WithCell(w: World, op: nat, c: Cell): World {
    w.(s := w.s.(cells := w.s.cells[op := c]))
  }

  function Logged(w: World, op: nat, number: nat, outcome: Outcome): World {
    w.(s := w.s.(log := w.s.log + [Settlement(op, number, outcome)]))
  }

  predicate HasDemand(demands: map<ReadKey, PendingRead>, op: nat) {
    exists k :: k in demands && k.op == op
  }

  // -------------------------------------------------------------- transitions

  /** `release_stream_operation`: root, payload and slot go exactly once. */
  function Release(w: World, op: nat): World {
    if op !in w.s.ops then w
    else
      var entry := w.s.ops[op];
      var w1 := w.(s := w.s.(ops := w.s.ops - {op}));
      if entry.released || op !in w.s.cells then w1
      else
        var w2 := WithCell(w1, op, w1.s.cells[op].(leaseTerminal := true, leaseReleased := true));
        GiveBack(w2, op)
  }

  /** The shared tail of every terminal path: demand probe, payload, slot. */
  function GiveBack(w: World, op: nat): World {
    World(Unreserve(SetLiveDemand(w.b, op, false), op).0,
          w.s.(payloads := w.s.payloads - {op}))
  }

  /** `transition_stream_eof`. */
  function TransitionEof(w: World, op: nat): World
    requires op in w.s.cells
  {
    var w1 := WithCell(w, op, w.s.cells[op].(hasData := false, inFlight := false, leaseTerminal := true));
    if op !in w1.s.ops then w1
    else
      var entry := w1.s.ops[op];
      var w2 := w1.(s := w1.s.(ops := w1.s.ops - {op}));
      if entry.released || entry.terminal then w2 else GiveBack(w2, op)
  }

  /** Settles `slots` one by one with the same outcome, skipping unpaired ones. */
  function SettleSlots(w: World, op: nat, slots: seq<nat>, outcome: Outcome): (w': World)
    ensures w'.b == w.b && w'.s.cells == w.s.cells && w'.s.ops == w.s.ops
    decreases |slots|
  {
    if slots == [] then w
    else
      var key := ReadKey(op, slots[0]);
      if key !in w.s.demands then SettleSlots(w, op, slots[1..], outcome)
      else SettleSlots(Logged(w.(s := w.s.(demands := w.s.demands - {key})), op, slots[0], outcome),
                       op, slots[1..], outcome)
  }

  function EmptyQueue(w: World, op: nat): World
    requires op in w.s.cells
  {
    WithCell(w, op, w.s.cells[op].(queue := []))
  }

  /** `clear_stream_live_demand_if_empty`. */
  function ClearDemandIfEmpty(w: World, op: nat): World {
    if HasDemand(w.s.demands, op) then w else w.(b := SetLiveDemand(w.b, op, false))
  }

  /** `drain_queue_done` / `drain_queue_reject`. */
  function DrainQueue(w: World, op: nat, outcome: Outcome): World
    requires op in w.s.cells
  {
    ClearDemandIfEmpty(SettleSlots(EmptyQueue(w, op), op, w.s.cells[op].queue, outcome), op)
  }

  /** The stored error, the closed cell and the replay entry of a failed stream. */
  function MarkFailed(w: World, op: nat, error: FileApiError): World
    requires op in w.s.cells
  {
    var c := w.s.cells[op];
    var w1 := WithCell(w, op, c.(errored := Some(error), hasData := false, inFlight := false,
                                 generation := c.generation + 1, leaseTerminal := true));
    w1.(s := w1.s.(errors := w1.s.errors[op := error]))
  }

  /** `fail_stream_with`: the triggering demand `number` is already taken. */
  function FailWith(w: World, op: nat, number: nat, error: FileApiError): World
    requires op in w.s.cells
  {
    var w1 := Logged(MarkFailed(w, op, error), op, number, Rejected(error));
    Release(DrainQueue(w1, op, Rejected(error)), op)
  }

  /** `fail_stream_from_submit`: the oldest demand fails with the whole queue. */
  function FailFromSubmit(w: World, op: nat, error: SubmitError): World
    requires op in w.s.cells
  {
    var c := w.s.cells[op];
    var w1 := WithCell(w, op, c.(inFlight := false, queue := if c.queue == [] then [] else c.queue[1..]));
    if c.queue == [] || ReadKey(op, c.queue[0]) !in w.s.demands then w1
    else
      var w2 := w1.(s := w1.s.(demands := w1.s.demands - {ReadKey(op, c.queue[0])}));
      FailWith(w2, op, c.queue[0], SubmitFailure(error))
  }

  /** `maybe_submit_next`: at most one bounded request, never a read-ahead. */
  function MaybeSubmit(w: World, op: nat, submit: Option<SubmitError>): (World, Option<SubmitError>)
    requires op in w.s.cells
  {
    var c := w.s.cells[op];
    if c.inFlight || c.cancelled || c.errored.Some? then (w, None)
    else if c.queue == [] then (w, None)
    else if !c.hasData then (w, None)
    else if op !in w.b.tokens || op !in w.s.payloads then (w, None)
    else if submit.Some? then (w, submit)
    else
      var remaining := if c.loaded <= |c.blob| then |c.blob| - c.loaded else 0;
      var task := Task(op, c.generation, c.loaded, Min(c.chunkSize, remaining));
      (w.(s := w.s.(cells := w.s.cells[op := c.(inFlight := true)], tasks := w.s.tasks + [task])), None)
  }

  function SubmitOrFail(w: World, op: nat, submit: Option<SubmitError>): World
    requires op in w.s.cells
  {
    var (w1, failed) := MaybeSubmit(w, op, submit);
    if failed.Some? then FailFromSubmit(w1, op, failed.value) else w1
  }

  // -------------------------------------------------------------- native calls

  datatype CreateError = RuntimeClosed | ChunkOutOfRange | NoSlot

  /** `create_stream`. */
  function CreateStream(w: World, blob: seq<Byte>, mode: Mode): (World, Result<nat, CreateError>) {
    if w.b.shutdown then (w, Err(RuntimeClosed))
    else if !ChunkInRange(w.s.chunkSize) then (w, Err(ChunkOutOfRange))
    else
      var (b1, reserved) := Reserve(w.b);
      match reserved
      case Err(e) => (w.(b := b1), Err(if e.Shutdown? then RuntimeClosed else NoSlot))
      case Ok(op) =>
        var cell := Cell(blob, true, 0, w.s.chunkSize, mode, [], false, false, None, [], 0, 1, false,
                         true, false, true, false, false, false);
        (World(b1, w.s.(cells := w.s.cells[op := cell],
                        ops := w.s.ops[op := OpEntry(1, false, false)],
                        payloads := w.s.payloads[op := blob])), Ok(op))
  }

  datatype ReaderError = NoLongerLive | AlreadyLocked

  /** `getReader()`. */
  function GetReader(w: World, op: nat): (World, Result<nat, ReaderError>) {
    if op !in w.s.ops || op !in w.s.cells then (w, Err(NoLongerLive))
    else
      var c := w.s.cells[op];
      if c.locked then (w, Err(AlreadyLocked))
      else
        var w1 := WithCell(w, op, c.(locked := true, readerRegistered := true, readerAlive := true));
        (w1.(s := w1.s.(readers := w1.s.readers + [ReaderObject(op, false, false, false)])),
         Ok(|w.s.readers|))
  }

  /** What one `read()` call hands back. */
  datatype ReadResult =
    | ReaderReleased
    | Immediate(outcome: Outcome)
    | Unsettled(key: ReadKey)
    | NeverSettles

  /** `reader.read()`. */
  function ReaderRead(w: World, reader: nat, submit: Option<SubmitError>): (World, ReadResult)
    requires reader < |w.s.readers|
  {
    var o := w.s.readers[reader];
    var op := o.op;
    if o.released then (w, ReaderReleased)
    else if op !in w.s.ops || op !in w.s.cells then
      (w, Immediate(if op in w.s.errors then Rejected(w.s.errors[op]) else Done))
    else
      var c := w.s.cells[op];
      if c.errored.Some? then (w, Immediate(Rejected(c.errored.value)))
      else if c.cancelled || !c.hasData then (w, Immediate(Done))
      else if w.b.shutdown then (w, NeverSettles)
      else
        var key := ReadKey(op, c.nextSeq);
        (SubmitOrFail(Queued(w, op), op, submit), Unsettled(key))
  }

  /** The new demand slot, its resolvers and the live-demand probe. */
  function Queued(w: World, op: nat): World
    requires op in w.s.cells
  {
    var c := w.s.cells[op];
    var w1 := WithCell(w, op, c.(queue := c.queue + [c.nextSeq], nextSeq := c.nextSeq + 1));
    World(SetLiveDemand(w.b, op, true),
          w1.s.(demands := w1.s.demands[ReadKey(op, c.nextSeq) := PendingRead(c.mode, c.generation)]))
  }

  /** The first half of `cancel_shared`: later completions go stale. */
  function CancelMarked(w: World, op: nat): World
    requires op in w.s.cells
  {
    var c := w.s.cells[op];
    WithCell(w, op, c.(cancelled := true, hasData := false, inFlight := false,
                       generation := c.generation + 1, leaseTerminal := true))
  }

  /** Every queued read of a cancelled stream is done. */
  function CancelDrained(w: World, op: nat): World
    requires op in w.s.cells
  {
    SettleSlots(EmptyQueue(w, op), op, w.s.cells[op].queue, Done)
  }

  /** `cancel_shared`. */
  function CancelShared(w: World, op: nat): World
    requires op in w.s.cells
  {
    var w1 := CancelMarked(w, op);
    if op !in w.s.ops then w1
    else if w.s.cells[op].leaseTerminal then Release(w1, op)
    else Release(CancelDrained(w1, op), op)
  }

  datatype CancelResult = CancelDone | LockedStream | CancelReleased

  /** `stream.cancel()`: refused on a locked stream. */
  function StreamCancel(w: World, op: nat): (World, CancelResult) {
    if op !in w.s.ops || op !in w.s.cells then (w, CancelDone)
    else if w.s.cells[op].locked then (w, LockedStream)
    else (CancelShared(w, op), CancelDone)
  }

  /** `reader.cancel()`. */
  function ReaderCancel(w: World, reader: nat): (World, CancelResult)
    requires reader < |w.s.readers|
  {
    var o := w.s.readers[reader];
    if o.released then (w, CancelReleased)
    else if o.op !in w.s.ops || o.op !in w.s.cells then (w, CancelDone)
    else (CancelShared(w, o.op), CancelDone)
  }

  datatype ReleaseResult = Unlocked | AlreadyReleased | StillBusy

  /** The reader-side claim: the first of finalizer, drop and `releaseLock` signals. */
  function SignalReader(w: World, reader: nat): World
    requires reader < |w.s.readers|
  {
    var o := w.s.readers[reader];
    if o.signalled then w
    else
      var w1 := w.(s := w.s.(readers := w.s.readers[reader := o.(signalled := true)]));
      if o.op in w1.s.cells then WithCell(w1, o.op, w1.s.cells[o.op].(readerAlive := false)) else w1
  }

  function MarkReleased(w: World, reader: nat): World
    requires reader < |w.s.readers|
  {
    w.(s := w.s.(readers := w.s.readers[reader := w.s.readers[reader].(released := true)]))
  }

  /** `reader.releaseLock()`: only with nothing queued and nothing in flight. */
  function ReleaseLock(w: World, reader: nat): (World, ReleaseResult)
    requires reader < |w.s.readers|
  {
    var o := w.s.readers[reader];
    if o.released then (w, AlreadyReleased)
    else if o.op !in w.s.ops || o.op !in w.s.cells then
      (MarkReleased(SignalReader(w, reader), reader), Unlocked)
    else if w.s.cells[o.op].queue != [] || w.s.cells[o.op].inFlight then (w, StillBusy)
    else if o.signalled then (w, AlreadyReleased)
    else
      var w1 := MarkReleased(SignalReader(w, reader), reader);
      (WithCell(w1, o.op, w1.s.cells[o.op].(readerRegistered := false, locked := false)), Unlocked)
  }

  // --------------------------------------------------------- environment steps

  /** The collector drops a stream object: only its own signal bit clears. */
  function DropStream(w: World, op: nat): World {
    if op in w.s.cells then WithCell(w, op, w.s.cells[op].(streamAlive := false)) else w
  }

  /** The collector drops a reader object. */
  function DropReader(w: World, reader: nat): World
    requires reader < |w.s.readers|
  {
    var w1 := SignalReader(w, reader);
    w1.(s := w1.s.(readers := w1.s.readers[reader := w1.s.readers[reader].(collected := true)]))
  }

  /** What a worker answers for `task`. */
  function Answer(blob: seq<Byte>, task: Task, failure: Option<FileApiError>): ChunkKind {
    ChunkAnswer(blob, task.offset, task.len, failure)
  }

  /** A worker answers outstanding task `i`, at any time. */
  function WorkerAnswers(w: World, i: nat, failure: Option<FileApiError>): World
    requires i < |w.s.tasks| && w.s.tasks[i].op in w.s.cells
  {
    var t := w.s.tasks[i];
    var kind := Answer(w.s.cells[t.op].blob, t, failure);
    World(PushStream(w.b, ChunkCompletion(t.op, t.generation, kind)),
          w.s.(tasks := w.s.tasks[..i] + w.s.tasks[i + 1..]))
  }

  // ------------------------------------------------------------------ poll_io

  /** `synchronize_endpoint_signals`. */
  function Synchronized(c: Cell): Cell {
    var c1 := if c.streamAlive then c else c.(streamRegistered := false);
    if c1.readerAlive then c1
    else c1.(readerRegistered := false, locked := c1.locked && !c1.streamRegistered)
  }

  /** Neither endpoint nor demand is left. */
  predicate Abandonable(c: Cell) {
    && !c.leaseTerminal && !c.leaseReleased
    && !c.streamRegistered && !c.readerRegistered
    && c.queue == [] && !c.inFlight
  }

  /** `try_abandon_stream_operation` and its transition. */
  function TryAbandon(w: World, op: nat): World {
    if op !in w.s.ops || op !in w.s.cells then w
    else
      var c := w.s.cells[op];
      if !Abandonable(c) then w
      else if HasDemand(w.s.demands, op) && op in w.b.liveDemand then w
      else
        var w1 := WithCell(w, op, c.(leaseTerminal := true, hasData := false, inFlight := false,
                                     generation := c.generation + 1));
        Release(w1, op)
  }

  /** First half of `drain_stream_cleanups`: every live cell reads its signals. */
  function SyncAll(w: World): World {
    w.(s := w.s.(cells := map op | op in w.s.cells ::
      if op in w.s.ops then Synchronized(w.s.cells[op]) else w.s.cells[op]))
  }

  /** Second half, over the snapshot `ids` of live operations. */
  function AbandonAll(w: World, ids: seq<nat>): World
    decreases |ids|
  {
    if ids == [] then w else AbandonAll(TryAbandon(w, ids[0]), ids[1..])
  }

  /** `drain_stream_cleanups`; `ids` lists the live operations in table order. */
  function DrainCleanups(w: World, ids: seq<nat>): World {
    if w.b.shutdown then w else AbandonAll(SyncAll(w), ids)
  }

  /** `settle_stream_completion`. */
  function Settle(w: World, done: ChunkCompletion, submit: Option<SubmitError>, packFails: bool): World {
    var op := done.op;
    if op !in w.s.ops || op !in w.s.cells then w
    else if w.s.ops[op].generation != done.generation then w
    else if w.b.shutdown then w
    else
      var c := w.s.cells[op];
      var w1 := WithCell(w, op, c.(inFlight := false, queue := if c.queue == [] then [] else c.queue[1..]));
      if c.leaseTerminal || c.queue == [] then w1
      else
        var key := ReadKey(op, c.queue[0]);
        if key !in w1.s.demands then w1
        else
          var read := w1.s.demands[key];
          var w2 := w1.(s := w1.s.(demands := w1.s.demands - {key}));
          if read.generation != done.generation then w2
          else match done.kind
            case Failed(error) => FailWith(w2, op, key.number, error)
            case Eof => SettleEof(w2, op, key.number, read)
            case Chunk(bytes) => SettleChunk(w2, op, key.number, read, bytes, submit, packFails)
  }

  /** A completion that `settle_stream_completion` counts: it found its live stream and its oldest demand. */
  predicate Lands(w: World, done: ChunkCompletion) {
    && done.op in w.s.ops && done.op in w.s.cells
    && w.s.ops[done.op].generation == done.generation && !w.b.shutdown
    && var c := w.s.cells[done.op];
    && !c.leaseTerminal && c.queue != [] && ReadKey(done.op, c.queue[0]) in w.s.demands
    && w.s.demands[ReadKey(done.op, c.queue[0])].generation == done.generation
  }

  /** The cell after a text chunk went through the decoder. */
  function TextCell(c: Cell, bytes: seq<Byte>): Cell {
    c.(pending := Utf8.Absorb(c.pending, bytes).1, loaded := c.loaded + |bytes|)
  }

  /** The cell after a byte chunk. */
  function BytesCell(c: Cell, bytes: seq<Byte>): Cell {
    c.(loaded := c.loaded + |bytes|)
  }

  /** Settling the demand in hand, with the cursor moved to `c'`. */
  function SettledWith(w: World, op: nat, number: nat, c': Cell, o: Outcome): World {
    Logged(WithCell(w, op, c'), op, number, o)
  }

  /** The demand in hand goes back to the front of the queue. */
  function PutBack(w: World, op: nat, number: nat, c': Cell, read: PendingRead): World {
    var w1 := WithCell(w, op, c'.(queue := [number] + c'.queue));
    w1.(s := w1.s.(demands := w1.s.demands[ReadKey(op, number) := read]))
  }

  /** Text that decodes to nothing yet is not a value: the demand waits for more. */
  function AfterText(w: World, op: nat, number: nat, c': Cell, text: Utf8.Text, read: PendingRead,
                     submit: Option<SubmitError>): World
    requires op in w.s.cells
  {
    if text == [] then SubmitOrFail(PutBack(w, op, number, c', read), op, submit)
    else Continue(SettledWith(w, op, number, c', Text(text)), op, submit)
  }

  function AfterBytes(w: World, op: nat, number: nat, c': Cell, bytes: seq<Byte>, submit: Option<SubmitError>,
                      packFails: bool): World
    requires op in w.s.cells
  {
    if packFails then FailWith(w, op, number, Internal)
    else Continue(SettledWith(w, op, number, c', Value(bytes)), op, submit)
  }

  /** `settle_stream_chunk`. */
  function SettleChunk(w: World, op: nat, number: nat, read: PendingRead, bytes: seq<Byte>,
                       submit: Option<SubmitError>, packFails: bool): World
    requires op in w.s.cells
  {
    var c := w.s.cells[op];
    if bytes == [] then
      SubmitOrFail(Logged(w, op, number, Rejected(InvalidRange)), op, submit)
    else match read.mode
      case TextMode =>
        AfterText(w, op, number, TextCell(c, bytes), Utf8.Absorb(c.pending, bytes).0, read, submit)
      case BytesMode =>
        AfterBytes(w, op, number, BytesCell(c, bytes), bytes, submit, packFails)
  }

  /** The next demand submits its own request, or the probe clears. */
  function Continue(w: World, op: nat, submit: Option<SubmitError>): World
    requires op in w.s.cells
  {
    var (w1, failed) := MaybeSubmit(w, op, submit);
    if failed.Some? then FailFromSubmit(w1, op, failed.value) else ClearDemandIfEmpty(w1, op)
  }

  /** `settle_stream_eof`: the decoder tail is one last value. */
  function SettleEof(w: World, op: nat, number: nat, read: PendingRead): World
    requires op in w.s.cells
  {
    var c := w.s.cells[op];
    var tail := if read.mode.TextMode? then Utf8.Flushed(c.pending) else [];
    var w1 := if read.mode.TextMode? then WithCell(w, op, c.(pending := [])) else w;
    var w2 := TransitionEof(w1, op);
    DrainQueue(Logged(w2, op, number, if tail != [] then Text(tail) else Done), op, Done)
  }

  // ----------------------------------------------------------------- shutdown

  /** A completion drained while the runtime shut down gives its slot back and is dropped with its root. */
  function DropForShutdown(w: World, op: nat): World {
    World(SetLiveDemand(Unreserve(w.b, op).0, op, false),
          w.s.(ops := w.s.ops - {op}, payloads := w.s.payloads - {op},
               demands := map k | k in w.s.demands && k.op != op :: w.s.demands[k]))
  }

  /** `drop_all_stream_state_for_shutdown`, after the bridge closer ran. */
  function ShutDownStreams(s: StreamState): StreamState {
    s.(ops := map[], demands := map[], errors := map[], payloads := map[])
  }
}
