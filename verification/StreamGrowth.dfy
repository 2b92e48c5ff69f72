/** Streams only go forward: settlements are never taken back, cells never go, cursors never return. */
module StreamGrowth {
  import opened Common
  import opened Bridge
  import opened Streams
  import Utf8

  ghost predicate CellGrew(c: Cell, c': Cell) {
    c'.blob == c.blob && c'.chunkSize == c.chunkSize && c'.mode == c.mode && c.loaded <= c'.loaded
  }

  ghost predicate Grew(s: StreamState, s': StreamState) {
    && s.log <= s'.log
    && forall op :: op in s.cells ==> op in s'.cells && CellGrew(s.cells[op], s'.cells[op])
  }

  lemma GrewTrans(a: StreamState, b: StreamState, c: StreamState)
    requires Grew(a, b) && Grew(b, c)
    ensures Grew(a, c)
  {
    forall op | op in a.cells ensures op in c.cells && CellGrew(a.cells[op], c.cells[op]) {
      assert CellGrew(a.cells[op], b.cells[op]) && CellGrew(b.cells[op], c.cells[op]);
    }
  }

  lemma WithCellGrew(w: World, op: nat, c: Cell)
    requires op in w.s.cells ==> CellGrew(w.s.cells[op], c)
    ensures Grew(w.s, WithCell(w, op, c).s)
  {
  }

  lemma ReleaseGrew(w: World, op: nat)
    ensures Grew(w.s, Release(w, op).s)
  {
  }

  lemma TransitionEofGrew(w: World, op: nat)
    requires op in w.s.cells
    ensures Grew(w.s, TransitionEof(w, op).s)
  {
  }

  lemma {:induction false} SettleSlotsGrew(w: World, op: nat, slots: seq<nat>, o: Outcome)
    ensures Grew(w.s, SettleSlots(w, op, slots, o).s)
    decreases |slots|
  {
    if slots != [] {
      var key := ReadKey(op, slots[0]);
      if key !in w.s.demands {
        SettleSlotsGrew(w, op, slots[1..], o);
      } else {
        var w1 := Logged(w.(s := w.s.(demands := w.s.demands - {key})), op, slots[0], o);
        SettleSlotsGrew(w1, op, slots[1..], o);
        GrewTrans(w.s, w1.s, SettleSlots(w1, op, slots[1..], o).s);
      }
    }
  }

  lemma DrainQueueGrew(w: World, op: nat, o: Outcome)
    requires op in w.s.cells
    ensures Grew(w.s, DrainQueue(w, op, o).s)
  {
    hide SettleSlots, Grew;
    var w1 := EmptyQueue(w, op);
    WithCellGrew(w, op, w.s.cells[op].(queue := []));
    SettleSlotsGrew(w1, op, w.s.cells[op].queue, o);
    GrewTrans(w.s, w1.s, SettleSlots(w1, op, w.s.cells[op].queue, o).s);
  }

  lemma FailWithGrew(w: World, op: nat, number: nat, error: FileApiError)
    requires op in w.s.cells
    ensures Grew(w.s, FailWith(w, op, number, error).s)
  {
    hide DrainQueue, Release;
    var w1 := Logged(MarkFailed(w, op, error), op, number, Rejected(error));
    assert Grew(w.s, w1.s);
    hide Grew;
    DrainQueueGrew(w1, op, Rejected(error));
    ReleaseGrew(DrainQueue(w1, op, Rejected(error)), op);
    GrewTrans(w.s, w1.s, DrainQueue(w1, op, Rejected(error)).s);
    GrewTrans(w.s, DrainQueue(w1, op, Rejected(error)).s, FailWith(w, op, number, error).s);
  }

  lemma FailFromSubmitGrew(w: World, op: nat, error: SubmitError)
    requires op in w.s.cells
    ensures Grew(w.s, FailFromSubmit(w, op, error).s)
  {
    hide FailWith;
    var c := w.s.cells[op];
    var w1 := WithCell(w, op, c.(inFlight := false, queue := if c.queue == [] then [] else c.queue[1..]));
    if c.queue != [] && ReadKey(op, c.queue[0]) in w.s.demands {
      var w2 := w1.(s := w1.s.(demands := w1.s.demands - {ReadKey(op, c.queue[0])}));
      FailWithGrew(w2, op, c.queue[0], SubmitFailure(error));
      GrewTrans(w.s, w2.s, FailWith(w2, op, c.queue[0], SubmitFailure(error)).s);
    }
  }

  lemma SubmitGrew(w: World, op: nat, submit: Option<SubmitError>)
    requires op in w.s.cells
    ensures Grew(w.s, MaybeSubmit(w, op, submit).0.s) && op in MaybeSubmit(w, op, submit).0.s.cells
    ensures Grew(w.s, SubmitOrFail(w, op, submit).s) && Grew(w.s, Continue(w, op, submit).s)
  {
    hide FailFromSubmit;
    var (w1, failed) := MaybeSubmit(w, op, submit);
    if failed.Some? {
      FailFromSubmitGrew(w1, op, failed.value);
      GrewTrans(w.s, w1.s, FailFromSubmit(w1, op, failed.value).s);
    }
  }

  lemma CancelSharedGrew(w: World, op: nat)
    requires op in w.s.cells
    ensures Grew(w.s, CancelShared(w, op).s)
  {
    hide SettleSlots, Release;
    var w1 := CancelMarked(w, op);
    WithCellGrew(w, op, w1.s.cells[op]);
    if op in w.s.ops {
      if w.s.cells[op].leaseTerminal {
        ReleaseGrew(w1, op);
        GrewTrans(w.s, w1.s, Release(w1, op).s);
      } else {
        var w2 := EmptyQueue(w1, op);
        var w3 := CancelDrained(w1, op);
        WithCellGrew(w, op, w2.s.cells[op]);
        SettleSlotsGrew(w2, op, w1.s.cells[op].queue, Done);
        GrewTrans(w.s, w2.s, w3.s);
        ReleaseGrew(w3, op);
        GrewTrans(w.s, w3.s, Release(w3, op).s);
      }
    }
  }

  // --------------------------------------------------------------- public calls

  lemma CreateStreamGrew(w: World, blob: seq<Byte>, mode: Mode)
    requires Reserve(w.b).1.Ok? ==> Reserve(w.b).1.value !in w.s.cells
    ensures Grew(w.s, CreateStream(w, blob, mode).0.s)
  {
  }

  lemma GetReaderGrew(w: World, op: nat)
    ensures Grew(w.s, GetReader(w, op).0.s)
  {
  }

  lemma QueuedGrew(w: World, op: nat)
    requires op in w.s.cells
    ensures Grew(w.s, Queued(w, op).s) && op in Queued(w, op).s.cells
  {
  }

  lemma ReaderReadGrew(w: World, reader: nat, submit: Option<SubmitError>)
    requires reader < |w.s.readers|
    ensures Grew(w.s, ReaderRead(w, reader, submit).0.s)
  {
    hide SubmitOrFail, Grew, Queued;
    var op := w.s.readers[reader].op;
    Unchanged(w.s);
    if op in w.s.cells {
      QueuedGrew(w, op);
      Onward(w, Queued(w, op), op, submit);
    }
  }

  lemma CancelGrew(w: World, op: nat)
    ensures Grew(w.s, StreamCancel(w, op).0.s)
  {
    hide CancelShared;
    if op in w.s.cells {
      CancelSharedGrew(w, op);
    }
  }

  lemma ReaderCancelGrew(w: World, reader: nat)
    requires reader < |w.s.readers|
    ensures Grew(w.s, ReaderCancel(w, reader).0.s)
  {
    hide CancelShared;
    if w.s.readers[reader].op in w.s.cells {
      CancelSharedGrew(w, w.s.readers[reader].op);
    }
  }

  lemma SignalGrew(w: World, reader: nat)
    requires reader < |w.s.readers|
    ensures Grew(w.s, SignalReader(w, reader).s) && |SignalReader(w, reader).s.readers| == |w.s.readers|
  {
    hide Grew;
    var o := w.s.readers[reader];
    var w1 := w.(s := w.s.(readers := w.s.readers[reader := o.(signalled := true)]));
    Unchanged(w.s);
    SameTables(w.s, w.s, w1.s);
    if o.op in w1.s.cells {
      WithCellGrew(w1, o.op, w1.s.cells[o.op].(readerAlive := false));
      GrewTrans(w.s, w1.s, WithCell(w1, o.op, w1.s.cells[o.op].(readerAlive := false)).s);
    }
  }

  lemma ReleaseLockGrew(w: World, reader: nat)
    requires reader < |w.s.readers|
    ensures Grew(w.s, ReleaseLock(w, reader).0.s)
  {
    hide SignalReader, Grew;
    var op := w.s.readers[reader].op;
    SignalGrew(w, reader);
    var w1 := MarkReleased(SignalReader(w, reader), reader);
    SameTables(w.s, SignalReader(w, reader).s, w1.s);
    Unchanged(w.s);
    if op in w1.s.cells {
      WithCellGrew(w1, op, w1.s.cells[op].(readerRegistered := false, locked := false));
      GrewTrans(w.s, w1.s, WithCell(w1, op, w1.s.cells[op].(readerRegistered := false, locked := false)).s);
    }
  }

  lemma SameTables(a: StreamState, b: StreamState, c: StreamState)
    requires Grew(a, b) && c.cells == b.cells && c.log == b.log
    ensures Grew(a, c)
  {
  }

  lemma Unchanged(s: StreamState)
    ensures Grew(s, s)
  {
  }

  lemma DropStreamGrew(w: World, op: nat)
    ensures Grew(w.s, DropStream(w, op).s)
  {
    hide Grew;
    Unchanged(w.s);
    if op in w.s.cells {
      WithCellGrew(w, op, w.s.cells[op].(streamAlive := false));
    }
  }

  lemma DropReaderGrew(w: World, reader: nat)
    requires reader < |w.s.readers|
    ensures Grew(w.s, DropReader(w, reader).s)
  {
    hide SignalReader, Grew;
    SignalGrew(w, reader);
    SameTables(w.s, SignalReader(w, reader).s, DropReader(w, reader).s);
  }

  lemma WorkerGrew(w: World, i: nat, failure: Option<FileApiError>)
    requires i < |w.s.tasks| && w.s.tasks[i].op in w.s.cells
    ensures Grew(w.s, WorkerAnswers(w, i, failure).s)
  {
  }

  lemma DropForShutdownGrew(w: World, op: nat)
    ensures Grew(w.s, DropForShutdown(w, op).s)
  {
    hide Grew;
    Unchanged(w.s);
    SameTables(w.s, w.s, DropForShutdown(w, op).s);
  }

  lemma ShutDownGrew(s: StreamState)
    ensures Grew(s, ShutDownStreams(s))
  {
  }

  // -------------------------------------------------------------------- poll_io

  lemma TryAbandonGrew(w: World, op: nat)
    ensures Grew(w.s, TryAbandon(w, op).s)
  {
    hide Release;
    if op in w.s.ops && op in w.s.cells {
      var c := w.s.cells[op];
      var w1 := WithCell(w, op, c.(leaseTerminal := true, hasData := false, inFlight := false,
                                   generation := c.generation + 1));
      ReleaseGrew(w1, op);
      GrewTrans(w.s, w1.s, Release(w1, op).s);
    }
  }

  lemma {:induction false} AbandonAllGrew(w: World, ids: seq<nat>)
    ensures Grew(w.s, AbandonAll(w, ids).s)
    decreases |ids|
  {
    hide TryAbandon;
    if ids != [] {
      TryAbandonGrew(w, ids[0]);
      AbandonAllGrew(TryAbandon(w, ids[0]), ids[1..]);
      GrewTrans(w.s, TryAbandon(w, ids[0]).s, AbandonAll(w, ids).s);
    }
  }

  lemma SweepGrew(w: World, ids: seq<nat>)
    ensures Grew(w.s, DrainCleanups(w, ids).s)
  {
    hide AbandonAll;
    assert Grew(w.s, SyncAll(w).s);
    AbandonAllGrew(SyncAll(w), ids);
    GrewTrans(w.s, SyncAll(w).s, AbandonAll(SyncAll(w), ids).s);
  }

  lemma SettleChunkGrew(w: World, op: nat, number: nat, read: PendingRead, bytes: seq<Byte>,
                        submit: Option<SubmitError>, packFails: bool)
    requires op in w.s.cells
    ensures Grew(w.s, SettleChunk(w, op, number, read, bytes, submit, packFails).s)
  {
    hide SubmitOrFail, Continue, FailWith, Utf8.Absorb, Grew, CellGrew, TextCell, BytesCell;
    var c := w.s.cells[op];
    var text, t, b := Utf8.Absorb(c.pending, bytes).0, TextCell(c, bytes), BytesCell(c, bytes);
    ReadCells(c, bytes, number);
    if bytes == [] {
      Moved(w, Logged(w, op, number, Rejected(InvalidRange)), op, c, [Settlement(op, number, Rejected(InvalidRange))]);
      Onward(w, Logged(w, op, number, Rejected(InvalidRange)), op, submit);
    } else if read.mode.TextMode? {
      if text == [] {
        Moved(w, PutBack(w, op, number, t, read), op, t.(queue := [number] + t.queue), []);
        Onward(w, PutBack(w, op, number, t, read), op, submit);
      } else {
        Moved(w, SettledWith(w, op, number, t, Text(text)), op, t, [Settlement(op, number, Text(text))]);
        Onward(w, SettledWith(w, op, number, t, Text(text)), op, submit);
      }
    } else if packFails {
      FailWithGrew(w, op, number, Internal);
    } else {
      Moved(w, SettledWith(w, op, number, b, Value(bytes)), op, b, [Settlement(op, number, Value(bytes))]);
      Onward(w, SettledWith(w, op, number, b, Value(bytes)), op, submit);
    }
  }

  /** One cell moves on and the log gains at most the end. */
  lemma Moved(w: World, w': World, op: nat, c': Cell, more: seq<Settlement>)
    requires op in w.s.cells && CellGrew(w.s.cells[op], c')
    requires w'.s.cells == w.s.cells[op := c'] && w'.s.log == w.s.log + more
    ensures Grew(w.s, w'.s)
  {
    forall x | x in w.s.cells ensures x in w'.s.cells && CellGrew(w.s.cells[x], w'.s.cells[x]) {
    }
  }

  lemma ReadCells(c: Cell, bytes: seq<Byte>, number: nat)
    ensures CellGrew(c, TextCell(c, bytes)) && CellGrew(c, BytesCell(c, bytes)) && CellGrew(c, c)
    ensures var t := TextCell(c, bytes); CellGrew(c, t.(queue := [number] + t.queue))
  {
    hide Utf8.Absorb;
  }

  lemma Onward(w: World, w1: World, op: nat, submit: Option<SubmitError>)
    requires Grew(w.s, w1.s) && op in w1.s.cells
    ensures Grew(w.s, SubmitOrFail(w1, op, submit).s) && Grew(w.s, Continue(w1, op, submit).s)
  {
    hide SubmitOrFail, Continue;
    SubmitGrew(w1, op, submit);
    GrewTrans(w.s, w1.s, SubmitOrFail(w1, op, submit).s);
    GrewTrans(w.s, w1.s, Continue(w1, op, submit).s);
  }

  lemma SettleEofGrew(w: World, op: nat, number: nat, read: PendingRead)
    requires op in w.s.cells
    ensures Grew(w.s, SettleEof(w, op, number, read).s)
  {
    hide DrainQueue, TransitionEof, Utf8.Flushed;
    var c := w.s.cells[op];
    var tail := if read.mode.TextMode? then Utf8.Flushed(c.pending) else [];
    var w1 := if read.mode.TextMode? then WithCell(w, op, c.(pending := [])) else w;
    var w2 := TransitionEof(w1, op);
    var w3 := Logged(w2, op, number, if tail != [] then Text(tail) else Done);
    TransitionEofGrew(w1, op);
    GrewTrans(w.s, w1.s, w2.s);
    GrewTrans(w.s, w2.s, w3.s);
    DrainQueueGrew(w3, op, Done);
    GrewTrans(w.s, w3.s, DrainQueue(w3, op, Done).s);
  }

  lemma SettleGrew(w: World, done: ChunkCompletion, submit: Option<SubmitError>, packFails: bool)
    ensures Grew(w.s, Settle(w, done, submit, packFails).s)
  {
    hide FailWith, SettleEof, SettleChunk;
    var op := done.op;
    if op in w.s.ops && op in w.s.cells && w.s.ops[op].generation == done.generation && !w.b.shutdown {
      var c := w.s.cells[op];
      var w1 := WithCell(w, op, c.(inFlight := false, queue := if c.queue == [] then [] else c.queue[1..]));
      if !c.leaseTerminal && c.queue != [] && ReadKey(op, c.queue[0]) in w1.s.demands {
        var key := ReadKey(op, c.queue[0]);
        var read := w1.s.demands[key];
        var w2 := w1.(s := w1.s.(demands := w1.s.demands - {key}));
        assert Grew(w.s, w2.s);
        if read.generation == done.generation {
          SettleKindGrew(w, w2, key, read, done.kind, submit, packFails);
        }
      }
    }
  }

  lemma SettleKindGrew(w: World, w2: World, key: ReadKey, read: PendingRead, kind: ChunkKind,
                       submit: Option<SubmitError>, packFails: bool)
    requires Grew(w.s, w2.s) && key.op in w2.s.cells
    ensures kind.Failed? ==> Grew(w.s, FailWith(w2, key.op, key.number, kind.error).s)
    ensures kind.Eof? ==> Grew(w.s, SettleEof(w2, key.op, key.number, read).s)
    ensures kind.Chunk? ==> Grew(w.s, SettleChunk(w2, key.op, key.number, read, kind.bytes, submit, packFails).s)
  {
    hide FailWith, SettleEof, SettleChunk;
    match kind
    case Failed(error) =>
      FailWithGrew(w2, key.op, key.number, error);
      GrewTrans(w.s, w2.s, FailWith(w2, key.op, key.number, error).s);
    case Eof =>
      SettleEofGrew(w2, key.op, key.number, read);
      GrewTrans(w.s, w2.s, SettleEof(w2, key.op, key.number, read).s);
    case Chunk(bytes) =>
      SettleChunkGrew(w2, key.op, key.number, read, bytes, submit, packFails);
      GrewTrans(w.s, w2.s, SettleChunk(w2, key.op, key.number, read, bytes, submit, packFails).s);
  }
}
