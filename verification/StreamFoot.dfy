/** The bridge footprint of every stream step: its own operation and nothing else. */
module StreamFoot {
  import opened Common
  import opened Bridge
  import opened Streams
  import Utf8

  /** A step about the operations `ids`: it mints nothing, opens nothing and ends nothing else. */
  ghost predicate Within(w: World, w': World, ids: set<nat>) {
    && Foot(w.b, w'.b, ids) && w'.b.next == w.b.next
    && w'.s.ops.Keys <= w.s.ops.Keys && w.s.ops.Keys <= w'.s.ops.Keys + ids
    && w'.s.cells.Keys == w.s.cells.Keys
  }

  lemma WithinTrans(w0: World, w1: World, w2: World, ids: set<nat>)
    requires Within(w0, w1, ids) && Within(w1, w2, ids)
    ensures Within(w0, w2, ids)
  {
    FootTrans(w0.b, w1.b, w2.b, ids);
  }

  lemma WithinSame(w: World, w': World, ids: set<nat>)
    requires Valid(w.b) && w'.b == w.b && w'.s.ops == w.s.ops && w'.s.cells.Keys == w.s.cells.Keys
    ensures Within(w, w', ids)
  {
    FootSame(w.b, ids);
  }

  lemma CellKeys(w: World, op: nat, c: Cell)
    requires op in w.s.cells
    ensures WithCell(w, op, c).s.cells.Keys == w.s.cells.Keys
  {
  }

  lemma GiveBackFoot(w: World, op: nat)
    requires Valid(w.b)
    ensures Within(w, GiveBack(w, op), {op})
  {
    FootDemand(w.b, op, false, {op});
    FootUnreserve(SetLiveDemand(w.b, op, false), op, {op});
    FootTrans(w.b, SetLiveDemand(w.b, op, false), GiveBack(w, op).b, {op});
  }

  lemma RootDroppedFoot(w: World, op: nat)
    requires Valid(w.b)
    ensures Within(w, w.(s := w.s.(ops := w.s.ops - {op})), {op})
  {
    FootSame(w.b, {op});
  }

  /** Root and cell move first, then the slot goes back. */
  lemma GivenUp(w: World, op: nat, w1: World)
    requires Valid(w.b) && op in w.s.cells && w1.b == w.b
    requires w1.s.ops == w.s.ops - {op} && w1.s.cells.Keys == w.s.cells.Keys
    ensures Within(w, w1, {op}) && Within(w, GiveBack(w1, op), {op})
  {
    FootSame(w.b, {op});
    GiveBackFoot(w1, op);
    WithinTrans(w, w1, GiveBack(w1, op), {op});
  }

  lemma ReleaseFoot(w: World, op: nat)
    requires Valid(w.b)
    ensures Within(w, Release(w, op), {op})
  {
    WithinSame(w, w, {op});
    RootDroppedFoot(w, op);
    if op in w.s.cells {
      var w1 := w.(s := w.s.(ops := w.s.ops - {op}));
      var c := w1.s.cells[op].(leaseTerminal := true, leaseReleased := true);
      CellKeys(w1, op, c);
      GivenUp(w, op, WithCell(w1, op, c));
    }
  }

  lemma TransitionEofFoot(w: World, op: nat)
    requires Valid(w.b) && op in w.s.cells
    ensures Within(w, TransitionEof(w, op), {op})
  {
    var c := w.s.cells[op].(hasData := false, inFlight := false, leaseTerminal := true);
    var w1 := WithCell(w, op, c);
    CellKeys(w, op, c);
    WithinSame(w, w1, {op});
    GivenUp(w, op, w1.(s := w1.s.(ops := w1.s.ops - {op})));
  }

  lemma DrainQueueFoot(w: World, op: nat, outcome: Outcome)
    requires Valid(w.b) && op in w.s.cells
    ensures Within(w, DrainQueue(w, op, outcome), {op})
  {
    FootSame(w.b, {op});
    FootDemand(w.b, op, false, {op});
    CellKeys(w, op, w.s.cells[op].(queue := []));
  }

  lemma FailWithFoot(w: World, op: nat, number: nat, error: FileApiError)
    requires Valid(w.b) && op in w.s.cells
    ensures Within(w, FailWith(w, op, number, error), {op})
  {
    var w1 := Logged(MarkFailed(w, op, error), op, number, Rejected(error));
    WithinSame(w, w1, {op});
    DrainQueueFoot(w1, op, Rejected(error));
    var w2 := DrainQueue(w1, op, Rejected(error));
    ReleaseFoot(w2, op);
    WithinTrans(w, w1, w2, {op});
    WithinTrans(w, w2, Release(w2, op), {op});
  }

  lemma SubmitFoot(w: World, op: nat, submit: Option<SubmitError>)
    requires Valid(w.b) && op in w.s.cells
    ensures Within(w, MaybeSubmit(w, op, submit).0, {op})
    ensures Within(w, SubmitOrFail(w, op, submit), {op})
  {
    var (w1, failed) := MaybeSubmit(w, op, submit);
    WithinSame(w, w1, {op});
    if failed.Some? {
      FailFromSubmitFoot(w1, op, failed.value);
    }
  }

  lemma FailFromSubmitFoot(w: World, op: nat, error: SubmitError)
    requires Valid(w.b) && op in w.s.cells
    ensures Within(w, FailFromSubmit(w, op, error), {op})
  {
    var c := w.s.cells[op];
    var w1 := WithCell(w, op, c.(inFlight := false, queue := if c.queue == [] then [] else c.queue[1..]));
    WithinSame(w, w1, {op});
    if c.queue != [] && ReadKey(op, c.queue[0]) in w.s.demands {
      var w2 := w1.(s := w1.s.(demands := w1.s.demands - {ReadKey(op, c.queue[0])}));
      WithinSame(w, w2, {op});
      FailWithFoot(w2, op, c.queue[0], SubmitFailure(error));
      WithinTrans(w, w2, FailWith(w2, op, c.queue[0], SubmitFailure(error)), {op});
    }
  }

  lemma ContinueFoot(w: World, op: nat, submit: Option<SubmitError>)
    requires Valid(w.b) && op in w.s.cells
    ensures Within(w, Continue(w, op, submit), {op})
  {
    var (w1, failed) := MaybeSubmit(w, op, submit);
    SubmitFoot(w, op, submit);
    FootDemand(w.b, op, false, {op});
    if failed.Some? {
      FailFromSubmitFoot(w1, op, failed.value);
    }
  }

  lemma AfterTextFoot(w: World, op: nat, number: nat, c': Cell, text: Utf8.Text, read: PendingRead,
                      submit: Option<SubmitError>)
    requires Valid(w.b) && op in w.s.cells
    ensures Within(w, AfterText(w, op, number, c', text, read, submit), {op})
  {
    var w1 := if text == [] then PutBack(w, op, number, c', read) else SettledWith(w, op, number, c', Text(text));
    WithinSame(w, w1, {op});
    if text == [] {
      SubmitFoot(w1, op, submit);
    } else {
      ContinueFoot(w1, op, submit);
    }
    WithinTrans(w, w1, AfterText(w, op, number, c', text, read, submit), {op});
  }

  lemma AfterBytesFoot(w: World, op: nat, number: nat, c': Cell, bytes: seq<Byte>, submit: Option<SubmitError>,
                       packFails: bool)
    requires Valid(w.b) && op in w.s.cells
    ensures Within(w, AfterBytes(w, op, number, c', bytes, submit, packFails), {op})
  {
    if packFails {
      FailWithFoot(w, op, number, Internal);
    } else {
      var w1 := SettledWith(w, op, number, c', Value(bytes));
      WithinSame(w, w1, {op});
      ContinueFoot(w1, op, submit);
      WithinTrans(w, w1, Continue(w1, op, submit), {op});
    }
  }

  lemma SettleChunkFoot(w: World, op: nat, number: nat, read: PendingRead, bytes: seq<Byte>,
                        submit: Option<SubmitError>, packFails: bool)
    requires Valid(w.b) && op in w.s.cells
    ensures Within(w, SettleChunk(w, op, number, read, bytes, submit, packFails), {op})
  {
    var c := w.s.cells[op];
    if bytes == [] {
      var w1 := Logged(w, op, number, Rejected(InvalidRange));
      WithinSame(w, w1, {op});
      SubmitFoot(w1, op, submit);
      WithinTrans(w, w1, SubmitOrFail(w1, op, submit), {op});
    } else {
      match read.mode
      case TextMode => AfterTextFoot(w, op, number, TextCell(c, bytes), Utf8.Absorb(c.pending, bytes).0, read, submit);
      case BytesMode => AfterBytesFoot(w, op, number, BytesCell(c, bytes), bytes, submit, packFails);
    }
  }

  lemma EndedFoot(w: World, op: nat, number: nat, o: Outcome)
    requires Valid(w.b) && op in w.s.cells
    ensures Within(w, DrainQueue(Logged(TransitionEof(w, op), op, number, o), op, Done), {op})
  {
    TransitionEofFoot(w, op);
    var w1 := TransitionEof(w, op);
    var w2 := Logged(w1, op, number, o);
    WithinSame(w1, w2, {op});
    WithinTrans(w, w1, w2, {op});
    DrainQueueFoot(w2, op, Done);
    WithinTrans(w, w2, DrainQueue(w2, op, Done), {op});
  }

  lemma SettleEofFoot(w: World, op: nat, number: nat, read: PendingRead)
    requires Valid(w.b) && op in w.s.cells
    ensures Within(w, SettleEof(w, op, number, read), {op})
  {
    var c := w.s.cells[op];
    var tail := if read.mode.TextMode? then Utf8.Flushed(c.pending) else [];
    var w1 := if read.mode.TextMode? then WithCell(w, op, c.(pending := [])) else w;
    WithinSame(w, w1, {op});
    EndedFoot(w1, op, number, if tail != [] then Text(tail) else Done);
    WithinTrans(w, w1, SettleEof(w, op, number, read), {op});
  }

  lemma PayloadFoot(w: World, op: nat, number: nat, read: PendingRead, kind: ChunkKind, submit: Option<SubmitError>,
                    packFails: bool)
    requires Valid(w.b) && op in w.s.cells
    ensures Within(w, match kind
                      case Failed(error) => FailWith(w, op, number, error)
                      case Eof => SettleEof(w, op, number, read)
                      case Chunk(bytes) => SettleChunk(w, op, number, read, bytes, submit, packFails), {op})
  {
    match kind
    case Failed(error) => FailWithFoot(w, op, number, error);
    case Eof => SettleEofFoot(w, op, number, read);
    case Chunk(bytes) => SettleChunkFoot(w, op, number, read, bytes, submit, packFails);
  }

  lemma SettleFoot(w: World, done: ChunkCompletion, submit: Option<SubmitError>, packFails: bool)
    requires Valid(w.b)
    ensures Within(w, Settle(w, done, submit, packFails), {done.op})
  {
    var op := done.op;
    WithinSame(w, w, {op});
    if op in w.s.cells {
      var c := w.s.cells[op];
      var w1 := WithCell(w, op, c.(inFlight := false, queue := if c.queue == [] then [] else c.queue[1..]));
      WithinSame(w, w1, {op});
      if c.queue != [] && ReadKey(op, c.queue[0]) in w1.s.demands {
        var key := ReadKey(op, c.queue[0]);
        var w2 := w1.(s := w1.s.(demands := w1.s.demands - {key}));
        WithinSame(w, w2, {op});
        PayloadFoot(w2, op, key.number, w1.s.demands[key], done.kind, submit, packFails);
        WithinAfter(w, w2, {op});
      }
    }
  }

  /** Starting from a state that differs in nothing a footprint speaks of. */
  lemma WithinAfter(w: World, w1: World, ids: set<nat>)
    requires Valid(w.b) && w1.b == w.b && w1.s.ops == w.s.ops && w1.s.cells.Keys == w.s.cells.Keys
    ensures forall w2 :: Within(w1, w2, ids) ==> Within(w, w2, ids)
  {
  }

  lemma CancelFoot(w: World, op: nat)
    requires Valid(w.b) && op in w.s.cells
    ensures Within(w, CancelShared(w, op), {op})
  {
    var w1 := CancelMarked(w, op);
    MarkedSame(w, op);
    DrainedSame(w1, op);
    WithinSame(w, w1, {op});
    CancelledFoot(w, w1, op);
    CancelledFoot(w, CancelDrained(w1, op), op);
  }

  lemma MarkedSame(w: World, op: nat)
    requires op in w.s.cells
    ensures var w1 := CancelMarked(w, op);
      w1.b == w.b && w1.s.ops == w.s.ops && w1.s.cells.Keys == w.s.cells.Keys
  {
  }

  lemma DrainedSame(w: World, op: nat)
    requires op in w.s.cells
    ensures var w1 := CancelDrained(w, op);
      w1.b == w.b && w1.s.ops == w.s.ops && w1.s.cells.Keys == w.s.cells.Keys
  {
  }

  lemma CancelledFoot(w: World, w1: World, op: nat)
    requires Valid(w.b) && w1.b == w.b && w1.s.ops == w.s.ops && w1.s.cells.Keys == w.s.cells.Keys
    ensures Within(w, Release(w1, op), {op})
  {
    WithinSame(w, w1, {op});
    ReleaseFoot(w1, op);
    WithinTrans(w, w1, Release(w1, op), {op});
  }

  lemma TryAbandonFoot(w: World, op: nat)
    requires Valid(w.b)
    ensures Within(w, TryAbandon(w, op), {op})
  {
    hide CancelShared, Valid;
    WithinSame(w, w, {op});
    if op in w.s.cells {
      var c := w.s.cells[op];
      var w1 := WithCell(w, op, c.(leaseTerminal := true, hasData := false, inFlight := false,
                                   generation := c.generation + 1));
      CancelledFoot(w, w1, op);
    }
  }

  lemma ReaderReadFoot(w: World, reader: nat, submit: Option<SubmitError>)
    requires Valid(w.b) && reader < |w.s.readers|
    ensures Within(w, ReaderRead(w, reader, submit).0, {w.s.readers[reader].op})
  {
    var op := w.s.readers[reader].op;
    WithinSame(w, w, {op});
    if op in w.s.cells {
      FootDemand(w.b, op, true, {op});
      assert Within(w, Queued(w, op), {op});
      SubmitFoot(Queued(w, op), op, submit);
      WithinTrans(w, Queued(w, op), SubmitOrFail(Queued(w, op), op, submit), {op});
    }
  }

  lemma ReaderCancelFoot(w: World, reader: nat)
    requires Valid(w.b) && reader < |w.s.readers|
    ensures Within(w, ReaderCancel(w, reader).0, {w.s.readers[reader].op})
  {
    var op := w.s.readers[reader].op;
    WithinSame(w, w, {op});
    if op in w.s.cells {
      CancelFoot(w, op);
    }
  }

  lemma StreamCancelFoot(w: World, op: nat)
    requires Valid(w.b)
    ensures Within(w, StreamCancel(w, op).0, {op})
  {
    WithinSame(w, w, {op});
    if op in w.s.cells {
      CancelFoot(w, op);
    }
  }

  lemma {:induction false} AbandonAllFoot(w: World, ids: seq<nat>, all: set<nat>)
    requires Valid(w.b) && w.s.ops.Keys <= all
    ensures Within(w, AbandonAll(w, ids), all)
    decreases |ids|
  {
    WithinSame(w, w, all);
    if ids != [] {
      var w1 := TryAbandon(w, ids[0]);
      if ids[0] in w.s.ops {
        TryAbandonFoot(w, ids[0]);
        WithinWider(w, w1, {ids[0]}, all);
      }
      AbandonAllFoot(w1, ids[1..], all);
      WithinTrans(w, w1, AbandonAll(w, ids), all);
    }
  }

  lemma WithinWider(w: World, w': World, few: set<nat>, ids: set<nat>)
    requires Within(w, w', few) && few <= ids
    ensures Within(w, w', ids)
  {
  }

  /** A sweep touches live streams only. */
  lemma SweepFoot(w: World, ids: seq<nat>)
    requires Valid(w.b)
    ensures Within(w, DrainCleanups(w, ids), w.s.ops.Keys)
  {
    var all := w.s.ops.Keys;
    WithinSame(w, w, all);
    WithinSame(w, SyncAll(w), all);
    AbandonAllFoot(SyncAll(w), ids, all);
    WithinAfter(w, SyncAll(w), all);
  }
}
