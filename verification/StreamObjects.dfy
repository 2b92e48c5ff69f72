/**
  The stream runtime as the object it is: per-context tables changed in place
  next to the bridge, with the early returns and loops of the native calls.
  Every method does what the matching function of module Streams says.
*/
module StreamObjects {
  import opened Common
  import opened Bridge
  import opened Io
  import opened Streams
  import Utf8

  class StreamRuntime {
    const io: IoBridge
    const chunkSize: nat
    var cells: map<nat, Cell>
    var ops: map<nat, OpEntry>
    var demands: map<ReadKey, PendingRead>
    var errors: map<nat, FileApiError>
    var payloads: map<nat, seq<Byte>>
    var readers: seq<ReaderObject>
    var tasks: seq<Task>
    var log: seq<Settlement>

    ghost function Tables(): StreamState
      reads this
    {
      StreamState(chunkSize, cells, ops, demands, errors, payloads, readers, tasks, log)
    }

    ghost function State(): World
      reads this, io
    {
      World(io.State(), Tables())
    }

    ghost predicate Valid()
      reads this, io
    {
      Bridge.Valid(io.State())
    }

    constructor (io: IoBridge, chunkSize: nat)
      ensures this.io == io && Tables() == InitStreams(chunkSize)
    {
      this.io := io;
      this.chunkSize := chunkSize;
      cells, ops, demands, errors, payloads := map[], map[], map[], map[], map[];
      readers, tasks, log := [], [], [];
    }

    // ---------------------------------------------------------- transitions

    method SetLiveDemand(op: nat, live: bool)
      requires Valid()
      modifies io
      ensures Valid() && State() == old(State()).(b := Bridge.SetLiveDemand(old(io.State()), op, live))
    {
      SetLiveDemandKeeps(io.State(), op, live);
      io.SetStreamLiveDemand(op, live);
    }

    method GiveBack(op: nat)
      requires Valid()
      modifies this`payloads, io
      ensures Valid() && State() == Streams.GiveBack(old(State()), op)
    {
      SetLiveDemand(op, false);
      payloads := payloads - {op};
      UnreserveKeeps(io.State(), op);
      var _ := io.Unreserve(op);
    }

    method ReleaseOperation(op: nat)
      requires Valid()
      modifies this, io
      ensures Valid() && State() == Release(old(State()), op)
    {
      if op !in ops {
        return;
      }
      var entry := ops[op];
      ops := ops - {op};
      if entry.released || op !in cells {
        return;
      }
      cells := cells[op := cells[op].(leaseTerminal := true, leaseReleased := true)];
      GiveBack(op);
    }

    method TransitionEof(op: nat)
      requires Valid() && op in cells
      modifies this, io
      ensures Valid() && op in cells && State() == Streams.TransitionEof(old(State()), op)
    {
      cells := cells[op := cells[op].(hasData := false, inFlight := false, leaseTerminal := true)];
      if op !in ops {
        return;
      }
      var entry := ops[op];
      ops := ops - {op};
      if entry.released || entry.terminal {
        return;
      }
      GiveBack(op);
    }

    method SettleSlots(op: nat, slots: seq<nat>, outcome: Outcome)
      requires Valid()
      modifies this`demands, this`log
      ensures State() == Streams.SettleSlots(old(State()), op, slots, outcome)
    {
      assert slots[0..] == slots;
      for i := 0 to |slots|
        invariant Streams.SettleSlots(State(), op, slots[i..], outcome)
               == Streams.SettleSlots(old(State()), op, slots, outcome)
      {
        assert slots[i..][1..] == slots[i + 1..];
        var key := ReadKey(op, slots[i]);
        if key !in demands {
          continue;
        }
        demands := demands - {key};
        log := log + [Settlement(op, slots[i], outcome)];
      }
    }

    method ClearDemandIfEmpty(op: nat)
      requires Valid()
      modifies io
      ensures Valid() && State() == Streams.ClearDemandIfEmpty(old(State()), op)
    {
      if !HasDemand(demands, op) {
        SetLiveDemand(op, false);
      }
    }

    method DrainQueue(op: nat, outcome: Outcome)
      requires Valid() && op in cells
      modifies this, io
      ensures Valid() && State() == Streams.DrainQueue(old(State()), op, outcome)
    {
      var slots := cells[op].queue;
      cells := cells[op := cells[op].(queue := [])];
      SettleSlots(op, slots, outcome);
      ClearDemandIfEmpty(op);
    }

    method FailWith(op: nat, number: nat, error: FileApiError)
      requires Valid() && op in cells
      modifies this, io
      ensures Valid() && State() == Streams.FailWith(old(State()), op, number, error)
    {
      hide Streams.DrainQueue, Streams.Release;
      var c := cells[op];
      cells := cells[op := c.(errored := Some(error), hasData := false, inFlight := false,
                              generation := c.generation + 1, leaseTerminal := true)];
      errors := errors[op := error];
      log := log + [Settlement(op, number, Rejected(error))];
      DrainQueue(op, Rejected(error));
      ReleaseOperation(op);
    }

    /** Takes the oldest demand out of the queue and clears the flight bit. */
    method PopFront(op: nat) returns (slot: Option<nat>)
      requires op in cells
      modifies this`cells
      ensures var c := old(cells)[op];
        && slot == (if c.queue == [] then None else Some(c.queue[0]))
        && cells == old(cells)[op := c.(inFlight := false, queue := if c.queue == [] then [] else c.queue[1..])]
    {
      var c := cells[op];
      if c.queue == [] {
        slot := None;
        cells := cells[op := c.(inFlight := false, queue := [])];
      } else {
        slot := Some(c.queue[0]);
        cells := cells[op := c.(inFlight := false, queue := c.queue[1..])];
      }
    }

    method FailFromSubmit(op: nat, error: SubmitError)
      requires Valid() && op in cells
      modifies this, io
      ensures Valid() && State() == Streams.FailFromSubmit(old(State()), op, error)
    {
      hide Streams.FailWith;
      var slot := PopFront(op);
      if slot.None? || ReadKey(op, slot.value) !in demands {
        return;
      }
      demands := demands - {ReadKey(op, slot.value)};
      FailWith(op, slot.value, SubmitFailure(error));
    }

    method MaybeSubmitNext(op: nat, submit: Option<SubmitError>) returns (failed: Option<SubmitError>)
      requires Valid() && op in cells
      modifies this
      ensures Valid() && (State(), failed) == MaybeSubmit(old(State()), op, submit)
    {
      var c := cells[op];
      if c.inFlight || c.cancelled || c.errored.Some? {
        return None;
      }
      if c.queue == [] {
        return None;
      }
      if !c.hasData {
        return None;
      }
      if op !in io.tokens || op !in payloads {
        return None;
      }
      if submit.Some? {
        return submit;
      }
      var remaining := if c.loaded <= |c.blob| then |c.blob| - c.loaded else 0;
      tasks := tasks + [Task(op, c.generation, c.loaded, Min(c.chunkSize, remaining))];
      cells := cells[op := c.(inFlight := true)];
      failed := None;
    }

    method SubmitOrFail(op: nat, submit: Option<SubmitError>)
      requires Valid() && op in cells
      modifies this, io
      ensures Valid() && State() == Streams.SubmitOrFail(old(State()), op, submit)
    {
      hide Streams.FailFromSubmit;
      var failed := MaybeSubmitNext(op, submit);
      if failed.Some? {
        FailFromSubmit(op, failed.value);
      }
    }

    // --------------------------------------------------------- native calls

    method CreateStream(blob: seq<Byte>, mode: Mode) returns (r: Result<nat, CreateError>)
      requires Valid()
      modifies this, io
      ensures Valid() && (State(), r) == Streams.CreateStream(old(State()), blob, mode)
    {
      if io.shutdown {
        return Err(RuntimeClosed);
      }
      if !ChunkInRange(chunkSize) {
        return Err(ChunkOutOfRange);
      }
      ReserveKeeps(io.State());
      var reserved := io.Reserve();
      if reserved.Err? {
        return Err(if reserved.error.Shutdown? then RuntimeClosed else NoSlot);
      }
      var op := reserved.value;
      payloads := payloads[op := blob];
      cells := cells[op := Cell(blob, true, 0, chunkSize, mode, [], false, false, None, [], 0, 1, false,
                                true, false, true, false, false, false)];
      ops := ops[op := OpEntry(1, false, false)];
      r := Ok(op);
    }

    method GetReader(op: nat) returns (r: Result<nat, ReaderError>)
      requires Valid()
      modifies this
      ensures Valid() && (State(), r) == Streams.GetReader(old(State()), op)
    {
      if op !in ops || op !in cells {
        return Err(NoLongerLive);
      }
      var c := cells[op];
      if c.locked {
        return Err(AlreadyLocked);
      }
      cells := cells[op := c.(locked := true, readerRegistered := true, readerAlive := true)];
      r := Ok(|readers|);
      readers := readers + [ReaderObject(op, false, false, false)];
    }

    method ReaderRead(reader: nat, submit: Option<SubmitError>) returns (r: ReadResult)
      requires Valid() && reader < |readers|
      modifies this, io
      ensures Valid() && (State(), r) == Streams.ReaderRead(old(State()), reader, submit)
    {
      var o := readers[reader];
      if o.released {
        return ReaderReleased;
      }
      if o.op !in ops || o.op !in cells {
        if o.op in errors {
          return Immediate(Rejected(errors[o.op]));
        }
        return Immediate(Done);
      }
      var c := cells[o.op];
      if c.errored.Some? {
        return Immediate(Rejected(c.errored.value));
      }
      if c.cancelled || !c.hasData {
        return Immediate(Done);
      }
      if io.shutdown {
        return NeverSettles;
      }
      Enqueue(o.op);
      SubmitOrFail(o.op, submit);
      r := Unsettled(ReadKey(o.op, c.nextSeq));
    }

    /** A new demand slot with its resolvers; the live-demand probe is set. */
    method Enqueue(op: nat)
      requires Valid() && op in cells
      modifies this, io
      ensures Valid() && State() == Queued(old(State()), op)
    {
      var c := cells[op];
      cells := cells[op := c.(queue := c.queue + [c.nextSeq], nextSeq := c.nextSeq + 1)];
      demands := demands[ReadKey(op, c.nextSeq) := PendingRead(c.mode, c.generation)];
      SetLiveDemand(op, true);
    }

    method CancelShared(op: nat)
      requires Valid() && op in cells
      modifies this, io
      ensures Valid() && State() == Streams.CancelShared(old(State()), op)
    {
      hide Streams.Release, Streams.SettleSlots;
      var live := op in ops;
      var c := cells[op];
      cells := cells[op := c.(cancelled := true, hasData := false, inFlight := false,
                              generation := c.generation + 1, leaseTerminal := true)];
      if !live {
        return;
      }
      if c.leaseTerminal {
        ReleaseOperation(op);
        return;
      }
      var slots := cells[op].queue;
      cells := cells[op := cells[op].(queue := [])];
      SettleSlots(op, slots, Done);
      ReleaseOperation(op);
    }

    method StreamCancel(op: nat) returns (r: CancelResult)
      requires Valid()
      modifies this, io
      ensures Valid() && (State(), r) == Streams.StreamCancel(old(State()), op)
    {
      if op !in ops || op !in cells {
        return CancelDone;
      }
      if cells[op].locked {
        return LockedStream;
      }
      CancelShared(op);
      r := CancelDone;
    }

    method ReaderCancel(reader: nat) returns (r: CancelResult)
      requires Valid() && reader < |readers|
      modifies this, io
      ensures Valid() && (State(), r) == Streams.ReaderCancel(old(State()), reader)
    {
      var o := readers[reader];
      if o.released {
        return CancelReleased;
      }
      if o.op !in ops || o.op !in cells {
        return CancelDone;
      }
      CancelShared(o.op);
      r := CancelDone;
    }

    method SignalReader(reader: nat)
      requires Valid() && reader < |readers|
      modifies this`readers, this`cells
      ensures State() == Streams.SignalReader(old(State()), reader) && |readers| == old(|readers|)
    {
      var o := readers[reader];
      if o.signalled {
        return;
      }
      readers := readers[reader := o.(signalled := true)];
      if o.op in cells {
        cells := cells[o.op := cells[o.op].(readerAlive := false)];
      }
    }

    method ReleaseLock(reader: nat) returns (r: ReleaseResult)
      requires Valid() && reader < |readers|
      modifies this`readers, this`cells
      ensures (State(), r) == Streams.ReleaseLock(old(State()), reader)
    {
      var o := readers[reader];
      if o.released {
        return AlreadyReleased;
      }
      if o.op !in ops || o.op !in cells {
        SignalReader(reader);
        readers := readers[reader := readers[reader].(released := true)];
        return Unlocked;
      }
      if cells[o.op].queue != [] || cells[o.op].inFlight {
        return StillBusy;
      }
      if o.signalled {
        return AlreadyReleased;
      }
      SignalReader(reader);
      readers := readers[reader := readers[reader].(released := true)];
      cells := cells[o.op := cells[o.op].(readerRegistered := false, locked := false)];
      r := Unlocked;
    }

    // --------------------------------------------------- environment steps

    method DropStream(op: nat)
      requires Valid()
      modifies this`cells
      ensures Valid() && State() == Streams.DropStream(old(State()), op)
    {
      if op in cells {
        cells := cells[op := cells[op].(streamAlive := false)];
      }
    }

    method DropReader(reader: nat)
      requires Valid() && reader < |readers|
      modifies this`readers, this`cells
      ensures Valid() && State() == Streams.DropReader(old(State()), reader)
    {
      SignalReader(reader);
      readers := readers[reader := readers[reader].(collected := true)];
    }

    /** A worker answers outstanding task `i`. */
    method WorkerAnswers(i: nat, failure: Option<FileApiError>)
      requires Valid() && i < |tasks| && tasks[i].op in cells
      modifies this`tasks, io
      ensures Valid() && State() == Streams.WorkerAnswers(old(State()), i, failure)
    {
      var t := tasks[i];
      var done := ChunkCompletion(t.op, t.generation, ChunkAnswer(cells[t.op].blob, t.offset, t.len, failure));
      PushStreamKeeps(io.State(), done);
      tasks := tasks[..i] + tasks[i + 1..];
      io.PushStreamCompletion(done);
    }

    // -------------------------------------------------------------- poll_io

    /** The live operations, as the cleanup sweep collects them. */
    method LiveOps() returns (ids: seq<nat>)
      ensures forall op :: op in ops <==> op in ids
    {
      ids := [];
      var left := ops.Keys;
      while left != {}
        invariant left <= ops.Keys
        invariant forall op :: op in ops <==> op in left || op in ids
        decreases left
      {
        var op :| op in left;
        ids := ids + [op];
        left := left - {op};
      }
    }

    method SynchronizeAll()
      requires Valid()
      modifies this`cells
      ensures State() == SyncAll(old(State()))
    {
      var live := ops.Keys;
      while live != {}
        invariant live <= ops.Keys && cells.Keys == old(cells).Keys
        invariant forall op :: op in cells ==>
          cells[op] == if op in ops && op !in live then Synchronized(old(cells)[op]) else old(cells)[op]
        decreases live
      {
        var op :| op in live;
        if op in cells {
          cells := cells[op := Synchronized(cells[op])];
        }
        live := live - {op};
      }
      assert cells == SyncAll(old(State())).s.cells;
    }

    method TryAbandon(op: nat)
      requires Valid()
      modifies this, io
      ensures Valid() && State() == Streams.TryAbandon(old(State()), op)
    {
      hide Streams.Release;
      if op !in ops || op !in cells {
        return;
      }
      var c := cells[op];
      if !Abandonable(c) {
        return;
      }
      if HasDemand(demands, op) && op in io.liveDemand {
        return;
      }
      cells := cells[op := c.(leaseTerminal := true, hasData := false, inFlight := false,
                              generation := c.generation + 1)];
      ReleaseOperation(op);
    }

    method DrainCleanups(liveOps: seq<nat>)
      requires Valid()
      modifies this, io
      ensures Valid() && State() == Streams.DrainCleanups(old(State()), liveOps)
    {
      if io.shutdown {
        return;
      }
      SynchronizeAll();
      ghost var w := State();
      assert liveOps[0..] == liveOps;
      for i := 0 to |liveOps|
        invariant Valid() && AbandonAll(State(), liveOps[i..]) == AbandonAll(w, liveOps)
      {
        assert liveOps[i..][1..] == liveOps[i + 1..];
        TryAbandon(liveOps[i]);
      }
    }

    /** Tells whether the completion counts: it found its live stream and its oldest demand. */
    method SettleCompletion(done: ChunkCompletion, submit: Option<SubmitError>, packFails: bool) returns (landed: bool)
      requires Valid()
      modifies this, io
      ensures Valid() && State() == Settle(old(State()), done, submit, packFails)
      ensures landed == Lands(old(State()), done)
    {
      hide Streams.FailWith, Streams.SettleEof, Streams.SettleChunk;
      var op := done.op;
      if op !in ops || op !in cells {
        return false;
      }
      if ops[op].generation != done.generation {
        return false;
      }
      if io.shutdown {
        return false;
      }
      var slot := PopFront(op);
      if cells[op].leaseTerminal || slot.None? {
        return false;
      }
      var key := ReadKey(op, slot.value);
      if key !in demands {
        return false;
      }
      var read := demands[key];
      demands := demands - {key};
      if read.generation != done.generation {
        return false;
      }
      landed := true;
      match done.kind {
        case Failed(error) => FailWith(op, slot.value, error);
        case Eof => SettleEof(op, slot.value, read);
        case Chunk(bytes) => SettleChunk(op, slot.value, read, bytes, submit, packFails);
      }
    }

    method SettleChunk(op: nat, number: nat, read: PendingRead, bytes: seq<Byte>, submit: Option<SubmitError>, packFails: bool)
      requires Valid() && op in cells
      modifies this, io
      ensures Valid() && State() == Streams.SettleChunk(old(State()), op, number, read, bytes, submit, packFails)
    {
      hide Streams.SubmitOrFail, Streams.AfterText, Streams.AfterBytes;
      if bytes == [] {
        log := log + [Settlement(op, number, Rejected(InvalidRange))];
        SubmitOrFail(op, submit);
      } else if read.mode.TextMode? {
        SettleText(op, number, read, bytes, submit);
      } else {
        SettleBytes(op, number, bytes, submit, packFails);
      }
    }

    /** A chunk that decodes to no text yet puts its demand back in front. */
    method SettleText(op: nat, number: nat, read: PendingRead, bytes: seq<Byte>, submit: Option<SubmitError>)
      requires Valid() && op in cells
      modifies this, io
      ensures var c := old(cells)[op];
        && Valid()
        && State() == AfterText(old(State()), op, number, TextCell(c, bytes), Utf8.Absorb(c.pending, bytes).0, read, submit)
    {
      hide Streams.SubmitOrFail, Streams.Continue, Utf8.Absorb;
      var c := cells[op];
      var (text, pending) := Utf8.Absorb(c.pending, bytes);
      c := c.(pending := pending, loaded := c.loaded + |bytes|);
      if text == [] {
        cells := cells[op := c.(queue := [number] + c.queue)];
        demands := demands[ReadKey(op, number) := read];
        SubmitOrFail(op, submit);
      } else {
        cells := cells[op := c];
        log := log + [Settlement(op, number, Text(text))];
        ContinueWith(op, submit);
      }
    }

    method SettleBytes(op: nat, number: nat, bytes: seq<Byte>, submit: Option<SubmitError>, packFails: bool)
      requires Valid() && op in cells
      modifies this, io
      ensures Valid() && State() == AfterBytes(old(State()), op, number, BytesCell(old(cells)[op], bytes), bytes, submit, packFails)
    {
      hide Streams.FailWith, Streams.Continue;
      if packFails {
        FailWith(op, number, Internal);
        return;
      }
      cells := cells[op := cells[op].(loaded := cells[op].loaded + |bytes|)];
      log := log + [Settlement(op, number, Value(bytes))];
      ContinueWith(op, submit);
    }

    /** The next queued demand submits its own request, or the probe clears. */
    method ContinueWith(op: nat, submit: Option<SubmitError>)
      requires Valid() && op in cells
      modifies this, io
      ensures Valid() && State() == Continue(old(State()), op, submit)
    {
      hide Streams.FailFromSubmit, Streams.ClearDemandIfEmpty;
      var failed := MaybeSubmitNext(op, submit);
      if failed.Some? {
        FailFromSubmit(op, failed.value);
      } else {
        ClearDemandIfEmpty(op);
      }
    }

    method SettleEof(op: nat, number: nat, read: PendingRead)
      requires Valid() && op in cells
      modifies this, io
      ensures Valid() && State() == Streams.SettleEof(old(State()), op, number, read)
    {
      hide Streams.TransitionEof, Streams.DrainQueue;
      var tail: Utf8.Text := [];
      if read.mode.TextMode? {
        tail := Utf8.Flushed(cells[op].pending);
        cells := cells[op := cells[op].(pending := [])];
      }
      TransitionEof(op);
      log := log + [Settlement(op, number, if tail != [] then Text(tail) else Done)];
      DrainQueue(op, Done);
    }

    /** What a drain does with a completion once the runtime is shut down. */
    method DropForShutdown(op: nat)
      requires Valid()
      modifies this, io
      ensures Valid() && State() == Streams.DropForShutdown(old(State()), op)
    {
      UnreserveKeeps(io.State(), op);
      var _ := io.Unreserve(op);
      payloads := payloads - {op};
      ops := ops - {op};
      demands := map k | k in demands && k.op != op :: demands[k];
      SetLiveDemand(op, false);
    }

    method ShutDown()
      modifies this
      ensures Tables() == ShutDownStreams(old(Tables()))
    {
      ops := map[];
      demands := map[];
      errors := map[];
      payloads := map[];
    }
  }
}
