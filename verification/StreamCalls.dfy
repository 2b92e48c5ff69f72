/**
  The native calls, drained completions, collector and worker steps of the
  stream machine: each keeps the invariant, and a cleanup sweep leaves no
  live stream without an endpoint or an owed read.
*/
module StreamCalls {
  import opened Common
  import opened Bridge
  import opened Streams
  import opened StreamLaws
  import opened StreamSteps
  import Utf8

  // ------------------------------------------------------- drained completions

  /** The next chunk continues the series, and the cursor moves past it. */
  lemma BytesAdvance(c: Cell, outs: seq<Outcome>, bytes: seq<Byte>, op: nat)
    requires LiveHistory(c, outs) && c.mode.BytesMode? && ChunkInRange(c.chunkSize)
    requires Chunk(bytes) == Answer(c.blob, NextTask(c, op), None)
    ensures bytes != []
    ensures LiveHistory(BytesCell(c, bytes), outs + [Value(bytes)])
  {
    var k := |outs|;
    assert c.loaded == Min(k * c.chunkSize, |c.blob|) < |c.blob|;
    assert (k + 1) * c.chunkSize == k * c.chunkSize + c.chunkSize;
    assert bytes == ChunkAt(c.blob, c.chunkSize, k);
    var all := outs + [Value(bytes)];
    forall i | 0 <= i < |all|
      ensures i * c.chunkSize < |c.blob| && all[i] == Value(ChunkAt(c.blob, c.chunkSize, i))
    {
      assert i < k ==> all[i] == outs[i];
    }
  }

  lemma TextJoins(outs: seq<Outcome>, whole: Utf8.Text, text: Utf8.Text)
    requires TextIs(outs, whole) && text != []
    ensures TextIs(outs + [Text(text)], whole + text)
  {
    JoinedAppend(outs, Text(text));
  }

  lemma NextChunk(c: Cell, bytes: seq<Byte>, op: nat)
    requires c.loaded <= |c.blob| && ChunkInRange(c.chunkSize)
    requires Chunk(bytes) == Answer(c.blob, NextTask(c, op), None)
    ensures bytes != [] && c.loaded + |bytes| <= |c.blob|
    ensures c.blob[..c.loaded] + bytes == c.blob[..c.loaded + |bytes|]
  {
  }

  function WithText(outs: seq<Outcome>, text: Utf8.Text): seq<Outcome> {
    if text == [] then outs else outs + [Text(text)]
  }

  lemma TextGrows(outs: seq<Outcome>, whole: Utf8.Text, text: Utf8.Text, more: Utf8.Text)
    requires TextIs(outs, whole) && whole + text == more
    ensures TextIs(WithText(outs, text), more)
  {
    if text != [] {
      TextJoins(outs, whole, text);
    }
  }

  lemma TextAdvanceFrom(done: seq<Byte>, pending: seq<Byte>, outs: seq<Outcome>, bytes: seq<Byte>)
    requires TextSoFar(done, pending, outs)
    ensures var (text, kept) := Utf8.Absorb(pending, bytes);
      TextSoFar(done + bytes, kept, WithText(outs, text))
  {
    Utf8.PushAdvances(done, bytes);
    TextGrows(outs, Utf8.Lossy(Utf8.Settled(done)), Utf8.Absorb(Utf8.Waiting(done), bytes).0,
              Utf8.Lossy(Utf8.Settled(done + bytes)));
  }

  lemma TextHistory(c: Cell, outs: seq<Outcome>)
    requires c.mode.TextMode? && c.loaded <= |c.blob|
    ensures LiveHistory(c, outs) <==> TextSoFar(c.blob[..c.loaded], c.pending, outs)
  {
  }

  lemma TextAdvance(c: Cell, outs: seq<Outcome>, bytes: seq<Byte>)
    requires LiveHistory(c, outs) && c.mode.TextMode?
    requires c.loaded + |bytes| <= |c.blob| && c.blob[..c.loaded] + bytes == c.blob[..c.loaded + |bytes|]
    ensures LiveHistory(TextCell(c, bytes), WithText(outs, Utf8.Absorb(c.pending, bytes).0))
  {
    TextHistory(c, outs);
    TextAdvanceFrom(c.blob[..c.loaded], c.pending, outs, bytes);
    TextHistory(TextCell(c, bytes), WithText(outs, Utf8.Absorb(c.pending, bytes).0));
  }

  /** An idle cell in hand of demand `n`, whose one request was just answered. */
  ghost predicate InHand(w: World, batch: seq<ChunkCompletion>, op: nat, n: nat) {
    && AllBut(w, batch, op) && LiveCore(w, batch, op, [n])
    && !w.s.cells[op].inFlight && At(w.b, op).live
  }

  ghost predicate OnlyCursor(c: Cell, c': Cell) {
    c' == c.(pending := c'.pending, loaded := c'.loaded)
  }

  lemma SettledWithOthers(w: World, batch: seq<ChunkCompletion>, op: nat, n: nat, c': Cell, o: Outcome)
    requires AllBut(w, batch, op) && op in w.s.cells && SameEndpoints(w.s.cells[op], c')
    ensures AllBut(SettledWith(w, op, n, c', o), batch, op)
  {
    var w' := SettledWith(w, op, n, c', o);
    forall x | x != op ensures SameAt(w, batch, w', batch, x) {
      LogAppend(w.s.log, Settlement(op, n, o), x);
    }
    EndpointsKept(w.s, w'.s);
    MoveAllBut(w, batch, w', batch, op);
  }

  lemma SettledWithOwn(w: World, batch: seq<ChunkCompletion>, op: nat, n: nat, c': Cell, o: Outcome)
    requires LiveCore(w, batch, op, [n]) && !w.s.cells[op].inFlight
    requires OnlyCursor(w.s.cells[op], c') && LiveHistory(c', Outs(w.s.log, op) + [o])
    ensures LiveCore(SettledWith(w, op, n, c', o), batch, op, [])
  {
    LogAppend(w.s.log, Settlement(op, n, o), op);
    var before := Numbers(w.s.log, op);
    assert before + [n] + [] + c'.queue == before + [n] + c'.queue;
    assert TasksOf(w.s.tasks, op) == [] && At(w.b, op).streamQ == [] && Of(batch, op) == [];
  }

  lemma DataSettled(w: World, batch: seq<ChunkCompletion>, op: nat, n: nat, c': Cell, o: Outcome,
                    submit: Option<SubmitError>)
    requires InHand(w, batch, op, n)
    requires OnlyCursor(w.s.cells[op], c') && LiveHistory(c', Outs(w.s.log, op) + [o])
    ensures StreamInv(Continue(SettledWith(w, op, n, c', o), op, submit), batch)
  {
    SettledWithOthers(w, batch, op, n, c', o);
    SettledWithOwn(w, batch, op, n, c', o);
    ContinueKeeps(SettledWith(w, op, n, c', o), batch, op, submit);
  }

  lemma PutBackOthers(w: World, batch: seq<ChunkCompletion>, op: nat, n: nat, c': Cell, read: PendingRead)
    requires AllBut(w, batch, op) && op in w.s.cells && SameEndpoints(w.s.cells[op], c')
    ensures AllBut(PutBack(w, op, n, c', read), batch, op)
  {
    hide Local;
    EndpointsKept(w.s, PutBack(w, op, n, c', read).s);
    MoveAllBut(w, batch, PutBack(w, op, n, c', read), batch, op);
  }

  lemma PutBackDemands(w: World, op: nat, n: nat, c': Cell)
    requires op in w.s.cells && DemandsOk(w, op, [n]) && OnlyCursor(w.s.cells[op], c')
    ensures DemandsOk(PutBack(w, op, n, c', PendingRead(c'.mode, 1)), op, [])
  {
    var before := Numbers(w.s.log, op);
    assert before + [] + ([n] + c'.queue) == before + [n] + c'.queue;
  }

  lemma PutBackOwn(w: World, batch: seq<ChunkCompletion>, op: nat, n: nat, c': Cell)
    requires LiveCore(w, batch, op, [n]) && !w.s.cells[op].inFlight
    requires OnlyCursor(w.s.cells[op], c') && LiveHistory(c', Outs(w.s.log, op))
    ensures LiveCore(PutBack(w, op, n, c', PendingRead(c'.mode, 1)), batch, op, [])
  {
    PutBackDemands(w, op, n, c');
    assert TasksOf(w.s.tasks, op) == [] && At(w.b, op).streamQ == [] && Of(batch, op) == [];
  }

  lemma AfterTextKeeps(w: World, batch: seq<ChunkCompletion>, op: nat, n: nat, c': Cell, text: Utf8.Text,
                       submit: Option<SubmitError>)
    requires InHand(w, batch, op, n) && w.s.cells[op].mode.TextMode?
    requires OnlyCursor(w.s.cells[op], c') && LiveHistory(c', WithText(Outs(w.s.log, op), text))
    ensures StreamInv(AfterText(w, op, n, c', text, PendingRead(TextMode, 1), submit), batch)
  {
    hide LiveHistory, StreamInv, AllBut;
    if text == [] {
      PutBackOthers(w, batch, op, n, c', PendingRead(TextMode, 1));
      PutBackOwn(w, batch, op, n, c');
      SubmitKeeps(PutBack(w, op, n, c', PendingRead(TextMode, 1)), batch, op, submit);
    } else {
      DataSettled(w, batch, op, n, c', Text(text), submit);
    }
  }

  lemma TextChunkKeeps(w: World, batch: seq<ChunkCompletion>, op: nat, n: nat, bytes: seq<Byte>,
                       submit: Option<SubmitError>, packFails: bool)
    requires InHand(w, batch, op, n) && w.s.cells[op].mode.TextMode?
    requires Chunk(bytes) == Answer(w.s.cells[op].blob, NextTask(w.s.cells[op], op), None)
    ensures StreamInv(SettleChunk(w, op, n, PendingRead(TextMode, 1), bytes, submit, packFails), batch)
  {
    var c := w.s.cells[op];
    NextChunk(c, bytes, op);
    TextAdvance(c, Outs(w.s.log, op), bytes);
    AfterTextKeeps(w, batch, op, n, TextCell(c, bytes), Utf8.Absorb(c.pending, bytes).0, submit);
  }

  lemma AfterBytesKeeps(w: World, batch: seq<ChunkCompletion>, op: nat, n: nat, c': Cell, bytes: seq<Byte>,
                        submit: Option<SubmitError>, packFails: bool)
    requires InHand(w, batch, op, n)
    requires OnlyCursor(w.s.cells[op], c') && LiveHistory(c', Outs(w.s.log, op) + [Value(bytes)])
    ensures StreamInv(AfterBytes(w, op, n, c', bytes, submit, packFails), batch)
  {
    if packFails {
      FailWithKeeps(w, batch, op, n, Internal);
    } else {
      DataSettled(w, batch, op, n, c', Value(bytes), submit);
    }
  }

  lemma BytesChunkKeeps(w: World, batch: seq<ChunkCompletion>, op: nat, n: nat, bytes: seq<Byte>,
                        submit: Option<SubmitError>, packFails: bool)
    requires InHand(w, batch, op, n) && w.s.cells[op].mode.BytesMode?
    requires Chunk(bytes) == Answer(w.s.cells[op].blob, NextTask(w.s.cells[op], op), None)
    ensures StreamInv(SettleChunk(w, op, n, PendingRead(BytesMode, 1), bytes, submit, packFails), batch)
  {
    var c' := BytesCell(w.s.cells[op], bytes);
    BytesAdvance(w.s.cells[op], Outs(w.s.log, op), bytes, op);
    AfterBytesKeeps(w, batch, op, n, c', bytes, submit, packFails);
  }

  lemma BatchHead(done: ChunkCompletion, rest: seq<ChunkCompletion>, x: nat)
    ensures Of([done] + rest, x) == (if done.op == x then [done] else []) + Of(rest, x)
  {
    assert ([done] + rest)[1..] == rest;
  }

  lemma StaleKeeps(w: World, done: ChunkCompletion, rest: seq<ChunkCompletion>)
    requires StreamInv(w, [done] + rest) && done.op !in w.s.ops
    ensures StreamInv(w, rest)
  {
    forall x ensures Local(w, rest, x) {
      assert Local(w, [done] + rest, x);
      BatchHead(done, rest, x);
      if x != done.op {
        Frame(w, [done] + rest, w, rest, x);
      }
    }
  }

  /** A live stream's completion always answers its oldest demand's request. */
  lemma AnswerMatches(w: World, done: ChunkCompletion, rest: seq<ChunkCompletion>)
    requires StreamInv(w, [done] + rest) && done.op in w.s.ops
    ensures done.op in w.s.cells
    ensures LiveOk(w, [done] + rest, done.op)
    ensures w.s.cells[done.op].inFlight && w.s.cells[done.op].queue != []
    ensures w.s.ops[done.op].generation == done.generation == 1
    ensures GoodAnswer(w.s.cells[done.op], done.op, done)
    ensures Work(w, rest, done.op) == 0
  {
    var op := done.op;
    assert Local(w, [done] + rest, op);
    BatchHead(done, rest, op);
    assert done in Of([done] + rest, op);
  }

  /** The state in which a live completion's payload is applied. */
  lemma TakenInHand(w: World, done: ChunkCompletion, rest: seq<ChunkCompletion>)
    requires StreamInv(w, [done] + rest) && done.op in w.s.ops && done.op in w.s.cells
    requires LiveOk(w, [done] + rest, done.op) && w.s.cells[done.op].queue != []
    requires Work(w, rest, done.op) == 0
    ensures InHand(Popped(w, done.op), rest, done.op, w.s.cells[done.op].queue[0])
  {
    var op := done.op;
    forall x | x != op ensures Of(rest, x) == Of([done] + rest, x) {
      BatchHead(done, rest, x);
    }
    PopOthers(w, [done] + rest, op, rest);
    PopOwn(w, [done] + rest, op, rest);
  }

  /** On a live stream, settling goes straight to the payload. */
  lemma SettleForm(w: World, done: ChunkCompletion, submit: Option<SubmitError>, packFails: bool)
    requires !w.b.shutdown && done.op in w.s.ops && done.op in w.s.cells
    requires w.s.ops[done.op].generation == done.generation == 1
    requires var c := w.s.cells[done.op];
      && !c.leaseTerminal && c.queue != []
      && ReadKey(done.op, c.queue[0]) in w.s.demands
      && w.s.demands[ReadKey(done.op, c.queue[0])] == PendingRead(c.mode, 1)
    ensures var c := w.s.cells[done.op];
      var n := c.queue[0];
      Settle(w, done, submit, packFails)
      == match done.kind
         case Failed(error) => FailWith(Popped(w, done.op), done.op, n, error)
         case Eof => SettleEof(Popped(w, done.op), done.op, n, PendingRead(c.mode, 1))
         case Chunk(bytes) => SettleChunk(Popped(w, done.op), done.op, n, PendingRead(c.mode, 1),
                                          bytes, submit, packFails)
  {
  }

  lemma InHandSettles(w: World, batch: seq<ChunkCompletion>, op: nat, n: nat, kind: ChunkKind,
                      submit: Option<SubmitError>, packFails: bool)
    requires InHand(w, batch, op, n)
    requires kind.Failed? || kind == Answer(w.s.cells[op].blob, NextTask(w.s.cells[op], op), None)
    ensures var read := PendingRead(w.s.cells[op].mode, 1);
      StreamInv(match kind
                case Failed(error) => FailWith(w, op, n, error)
                case Eof => SettleEof(w, op, n, read)
                case Chunk(bytes) => SettleChunk(w, op, n, read, bytes, submit, packFails), batch)
  {
    match kind
    case Failed(error) => FailWithKeeps(w, batch, op, n, error);
    case Eof => SettleEofKeeps(w, batch, op, n, PendingRead(w.s.cells[op].mode, 1));
    case Chunk(bytes) =>
      if w.s.cells[op].mode.TextMode? {
        TextChunkKeeps(w, batch, op, n, bytes, submit, packFails);
      } else {
        BytesChunkKeeps(w, batch, op, n, bytes, submit, packFails);
      }
  }

  /** Taking the demand in hand does not change what was asked for. */
  lemma PoppedTask(w: World, op: nat)
    requires op in w.s.cells && w.s.cells[op].queue != [] && w.s.cells[op].loaded <= |w.s.cells[op].blob|
    ensures var c, c' := w.s.cells[op], Popped(w, op).s.cells[op];
      c'.blob == c.blob && c'.mode == c.mode && c'.loaded == c.loaded && NextTask(c', op) == NextTask(c, op)
  {
  }

  lemma LiveSettleKeeps(w: World, done: ChunkCompletion, rest: seq<ChunkCompletion>,
                        submit: Option<SubmitError>, packFails: bool)
    requires StreamInv(w, [done] + rest) && done.op in w.s.ops
    ensures StreamInv(Settle(w, done, submit, packFails), rest)
  {
    AnswerMatches(w, done, rest);
    TakenInHand(w, done, rest);
    PopDemands(w, done.op);
    SettleForm(w, done, submit, packFails);
    PoppedTask(w, done.op);
    InHandSettles(Popped(w, done.op), rest, done.op, w.s.cells[done.op].queue[0], done.kind, submit, packFails);
  }

  /**
    Settling one drained completion: for a live stream none of the "drop it"
    branches is taken, the oldest read is settled with the chunk it asked for,
    and the invariant is back in place.
  */
  lemma SettleKeeps(w: World, done: ChunkCompletion, rest: seq<ChunkCompletion>,
                    submit: Option<SubmitError>, packFails: bool)
    requires StreamInv(w, [done] + rest)
    ensures StreamInv(Settle(w, done, submit, packFails), rest)
  {
    if done.op !in w.s.ops {
      StaleKeeps(w, done, rest);
    } else {
      LiveSettleKeeps(w, done, rest, submit, packFails);
    }
  }

  // ------------------------------------------------------------- endpoint calls

  ghost predicate SameButEndpoints(c: Cell, c': Cell) {
    c' == c.(locked := c'.locked, streamRegistered := c'.streamRegistered, readerRegistered := c'.readerRegistered,
             streamAlive := c'.streamAlive, readerAlive := c'.readerAlive)
  }

  lemma HistoryIgnoresEndpoints(c: Cell, c': Cell, outs: seq<Outcome>)
    requires SameButEndpoints(c, c')
    ensures LiveHistory(c, outs) ==> LiveHistory(c', outs)
    ensures DeadHistory(c, outs) ==> DeadHistory(c', outs)
  {
  }

  ghost predicate OnlyEndpoints(s: StreamState, s': StreamState) {
    && s' == s.(cells := s'.cells, readers := s'.readers) && s'.cells.Keys == s.cells.Keys
    && forall x :: x in s'.cells ==> SameButEndpoints(s.cells[x], s'.cells[x])
  }

  lemma LiveIgnoresEndpoints(w: World, batch: seq<ChunkCompletion>, s': StreamState, x: nat)
    requires OnlyEndpoints(w.s, s') && LiveOk(w, batch, x)
    ensures LiveOk(w.(s := s'), batch, x)
  {
    var w' := w.(s := s');
    var c, c' := w.s.cells[x], s'.cells[x];
    HistoryIgnoresEndpoints(c, c', Outs(w.s.log, x));
    assert RequestsOk(w', batch, x) by {
      assert NextTask(c, x) == NextTask(c', x);
      assert forall a :: GoodAnswer(c, x, a) == GoodAnswer(c', x, a);
    }
    assert LiveCore(w', batch, x, []);
  }

  lemma DeadIgnoresEndpoints(w: World, s': StreamState, x: nat)
    requires OnlyEndpoints(w.s, s') && DeadOk(w, x)
    ensures DeadOk(w.(s := s'), x)
  {
    HistoryIgnoresEndpoints(w.s.cells[x], s'.cells[x], Outs(w.s.log, x));
  }

  /** Endpoint flags matter to `EndpointsOk` alone. */
  lemma EndpointMoves(w: World, batch: seq<ChunkCompletion>, s': StreamState)
    requires StreamInv(w, batch) && EndpointsOk(s') && OnlyEndpoints(w.s, s')
    ensures StreamInv(w.(s := s'), batch)
  {
    forall x ensures Local(w.(s := s'), batch, x) {
      assert Local(w, batch, x);
      if x in w.s.cells && x in w.s.ops {
        LiveIgnoresEndpoints(w, batch, s', x);
      } else if x in w.s.cells {
        DeadIgnoresEndpoints(w, s', x);
      }
    }
  }

  /** A fresh reader object takes an unlocked stream. */
  function Locked(s: StreamState, op: nat): StreamState
    requires op in s.cells
  {
    s.(cells := s.cells[op := s.cells[op].(locked := true, readerRegistered := true, readerAlive := true)],
       readers := s.readers + [ReaderObject(op, false, false, false)])
  }

  lemma StillHeld(s: StreamState, s': StreamState, x: nat)
    requires Held(s, x)
    requires |s.readers| <= |s'.readers|
    requires forall i :: 0 <= i < |s.readers| && s.readers[i].op == x ==> s'.readers[i] == s.readers[i]
    ensures Held(s', x)
  {
    var i :| 0 <= i < |s.readers| && s.readers[i].op == x && !s.readers[i].signalled;
    assert s'.readers[i] == s.readers[i];
  }

  lemma LockedEndpoints(s: StreamState, op: nat)
    requires EndpointsOk(s) && op in s.cells && op in s.ops && !s.cells[op].locked
    ensures EndpointsOk(Locked(s, op))
  {
    var s' := Locked(s, op);
    var n := |s.readers|;
    assert s'.readers[n] == ReaderObject(op, false, false, false);
    forall i | 0 <= i < n && s.readers[i].op == op
      ensures s.readers[i].signalled
    {
    }
    forall x | x in s'.ops && x in s'.cells && s'.cells[x].readerAlive
      ensures Held(s', x)
    {
      if x != op {
        StillHeld(s, s', x);
      }
    }
  }

  lemma GetReaderKeeps(w: World, batch: seq<ChunkCompletion>, op: nat)
    requires StreamInv(w, batch)
    ensures var (w', r) := GetReader(w, op);
      && StreamInv(w', batch) && w'.b == w.b
      && (r.Ok? <==> op in w.s.ops && op in w.s.cells && !w.s.cells[op].locked)
      && (r.Ok? ==> w'.s.readers == w.s.readers + [ReaderObject(op, false, false, false)])
  {
    if GetReader(w, op).1.Ok? {
      LockedEndpoints(w.s, op);
      EndpointMoves(w, batch, Locked(w.s, op));
    }
  }

  /** Signalling a reader touches its own flag and its own stream's bit. */
  lemma SignalOk(w: World, batch: seq<ChunkCompletion>, reader: nat)
    requires StreamInv(w, batch) && reader < |w.s.readers|
    ensures StreamInv(SignalReader(w, reader), batch)
  {
    var o := w.s.readers[reader];
    if !o.signalled {
      var w' := SignalReader(w, reader);
      forall x | x in w'.s.ops && x in w'.s.cells && w'.s.cells[x].readerAlive
        ensures Held(w'.s, x)
      {
        assert x != o.op && Held(w.s, x);
        var i :| 0 <= i < |w.s.readers| && w.s.readers[i].op == x && !w.s.readers[i].signalled;
        assert w'.s.readers[i] == w.s.readers[i];
      }
      EndpointMoves(w, batch, w'.s);
    }
  }

  /** Marking an already signalled reader object changes nothing that is relied on. */
  lemma MarkOk(w: World, batch: seq<ChunkCompletion>, reader: nat, o: ReaderObject)
    requires StreamInv(w, batch) && reader < |w.s.readers| && w.s.readers[reader].signalled
    requires o.op == w.s.readers[reader].op && o.signalled
    ensures StreamInv(w.(s := w.s.(readers := w.s.readers[reader := o])), batch)
  {
    var s' := w.s.(readers := w.s.readers[reader := o]);
    forall x | x in s'.ops && x in s'.cells && s'.cells[x].readerAlive
      ensures Held(s', x)
    {
      assert Held(w.s, x);
      var i :| 0 <= i < |w.s.readers| && w.s.readers[i].op == x && !w.s.readers[i].signalled;
      assert s'.readers[i] == w.s.readers[i];
    }
    EndpointMoves(w, batch, s');
  }

  lemma DropReaderKeeps(w: World, batch: seq<ChunkCompletion>, reader: nat)
    requires StreamInv(w, batch) && reader < |w.s.readers|
    ensures StreamInv(DropReader(w, reader), batch)
  {
    SignalOk(w, batch, reader);
    var w1 := SignalReader(w, reader);
    MarkOk(w1, batch, reader, w1.s.readers[reader].(collected := true));
  }

  /**
    The finalizer of a reader that has a successor does nothing to the stream:
    its signal was claimed before the successor could be created.
  */
  lemma OldFinalizerIsHarmless(w: World, batch: seq<ChunkCompletion>, earlier: nat, newer: nat)
    requires StreamInv(w, batch) && earlier < newer < |w.s.readers|
    requires w.s.readers[earlier].op == w.s.readers[newer].op
    ensures DropReader(w, earlier).s.cells == w.s.cells
    ensures DropReader(w, earlier).s.readers[newer] == w.s.readers[newer]
  {
  }

  lemma DropStreamKeeps(w: World, batch: seq<ChunkCompletion>, op: nat)
    requires StreamInv(w, batch)
    ensures StreamInv(DropStream(w, op), batch)
  {
    if op in w.s.cells {
      var s' := DropStream(w, op).s;
      forall x | x in s'.ops && x in s'.cells && s'.cells[x].readerAlive
        ensures Held(s', x)
      {
        assert Held(w.s, x);
      }
      EndpointMoves(w, batch, s');
    }
  }

  /** The last step of `releaseLock`: an unheld stream is free to be locked again. */
  lemma UnlockOk(w: World, batch: seq<ChunkCompletion>, op: nat)
    requires StreamInv(w, batch) && op in w.s.cells && !Held(w.s, op)
    ensures StreamInv(WithCell(w, op, w.s.cells[op].(readerRegistered := false, locked := false)), batch)
  {
    var s' := WithCell(w, op, w.s.cells[op].(readerRegistered := false, locked := false)).s;
    forall x | x in s'.ops && x in s'.cells
      ensures s'.cells[x].readerAlive ==> s'.cells[x].readerRegistered && Held(s', x)
      ensures !s'.cells[x].locked ==> !s'.cells[x].readerAlive
    {
      assert w.s.cells[x].readerAlive ==> Held(w.s, x);
      assert Held(w.s, x) ==> Held(s', x);
    }
    EndpointMoves(w, batch, s');
  }

  lemma ReleasedReader(w: World, batch: seq<ChunkCompletion>, reader: nat)
    requires StreamInv(w, batch) && reader < |w.s.readers|
    ensures StreamInv(MarkReleased(SignalReader(w, reader), reader), batch)
  {
    SignalOk(w, batch, reader);
    var w1 := SignalReader(w, reader);
    MarkOk(w1, batch, reader, w1.s.readers[reader].(released := true));
  }

  /** A reader that still has its signal is the only one that holds its stream. */
  lemma OneHolder(w: World, batch: seq<ChunkCompletion>, reader: nat)
    requires StreamInv(w, batch) && reader < |w.s.readers| && !w.s.readers[reader].signalled
    ensures !Held(MarkReleased(SignalReader(w, reader), reader).s, w.s.readers[reader].op)
  {
  }

  lemma ReleaseLockKeeps(w: World, batch: seq<ChunkCompletion>, reader: nat)
    requires StreamInv(w, batch) && reader < |w.s.readers|
    ensures StreamInv(ReleaseLock(w, reader).0, batch) && ReleaseLock(w, reader).0.b == w.b
  {
    var o := w.s.readers[reader];
    if ReleaseLock(w, reader).1.Unlocked? {
      ReleasedReader(w, batch, reader);
      if o.op in w.s.ops && o.op in w.s.cells {
        OneHolder(w, batch, reader);
        UnlockOk(MarkReleased(SignalReader(w, reader), reader), batch, o.op);
      }
    }
  }

  // ------------------------------------------------------------- other calls

  lemma StreamCancelKeeps(w: World, batch: seq<ChunkCompletion>, op: nat)
    requires StreamInv(w, batch)
    ensures StreamInv(StreamCancel(w, op).0, batch)
  {
    if op in w.s.ops && op in w.s.cells && !w.s.cells[op].locked {
      CancelSharedKeeps(w, batch, op);
    }
  }

  lemma ReaderCancelKeeps(w: World, batch: seq<ChunkCompletion>, reader: nat)
    requires StreamInv(w, batch) && reader < |w.s.readers|
    ensures StreamInv(ReaderCancel(w, reader).0, batch)
  {
    var o := w.s.readers[reader];
    if !o.released && o.op in w.s.ops && o.op in w.s.cells {
      CancelSharedKeeps(w, batch, o.op);
    }
  }

  function NewCell(blob: seq<Byte>, mode: Mode, chunkSize: nat): Cell {
    Cell(blob, true, 0, chunkSize, mode, [], false, false, None, [], 0, 1, false,
         true, false, true, false, false, false)
  }

  lemma NewHistory(c: Cell)
    requires c.loaded == 0 && c.pending == []
    ensures LiveHistory(c, [])
  {
    assert c.blob[..0] == [];
    Utf8.NothingWaits();
  }

  /** The tables after a stream over `blob` takes id `op`. */
  function Created(s: StreamState, op: nat, blob: seq<Byte>, mode: Mode): StreamState {
    s.(cells := s.cells[op := NewCell(blob, mode, s.chunkSize)],
       ops := s.ops[op := OpEntry(1, false, false)], payloads := s.payloads[op := blob])
  }

  lemma CreatedDemands(w: World, b': BridgeState, op: nat, blob: seq<Byte>, mode: Mode)
    requires AbsentOk(w, op)
    ensures DemandsOk(World(b', Created(w.s, op, blob, mode)), op, [])
  {
    assert Upto(0) == [];
  }

  lemma CreatedOwn(w: World, b': BridgeState, op: nat, blob: seq<Byte>, mode: Mode)
    requires AbsentOk(w, op) && At(b', op) == FRESH_VIEW && op < b'.next && ChunkInRange(w.s.chunkSize)
    ensures LiveOk(World(b', Created(w.s, op, blob, mode)), [], op)
  {
    var w' := World(b', Created(w.s, op, blob, mode));
    NewHistory(NewCell(blob, mode, w.s.chunkSize));
    CreatedDemands(w, b', op, blob, mode);
    assert Of([], op) == [];
    assert RequestsOk(w', [], op);
    assert RootOk(w', op);
  }

  lemma CreatedElsewhere(w: World, b': BridgeState, op: nat, blob: seq<Byte>, mode: Mode, x: nat)
    requires x != op && At(b', x) == At(w.b, x)
    ensures SameAt(w, [], World(b', Created(w.s, op, blob, mode)), [], x)
  {
  }

  lemma CreatedEndpoints(s: StreamState, op: nat, blob: seq<Byte>, mode: Mode)
    requires EndpointsOk(s) && op !in s.cells
    ensures EndpointsOk(Created(s, op, blob, mode))
  {
    var s' := Created(s, op, blob, mode);
    forall x | x in s'.ops && x in s'.cells && s'.cells[x].readerAlive
      ensures Held(s', x)
    {
      assert Held(s, x);
    }
  }

  lemma CreatedKeeps(w: World, blob: seq<Byte>, mode: Mode)
    requires StreamInv(w, []) && Reserve(w.b).1.Ok? && ChunkInRange(w.s.chunkSize)
    ensures StreamInv(World(Reserve(w.b).0, Created(w.s, w.b.next, blob, mode)), [])
  {
    var op := w.b.next;
    ReserveKeeps(w.b);
    var b' := Reserve(w.b).0;
    assert Local(w, [], op);
    CreatedOwn(w, b', op, blob, mode);
    CreatedEndpoints(w.s, op, blob, mode);
    forall x | x != op ensures SameAt(w, [], World(b', Created(w.s, op, blob, mode)), [], x) {
      CreatedElsewhere(w, b', op, blob, mode, x);
    }
    Rebuild(w, [], World(b', Created(w.s, op, blob, mode)), [], op);
  }

  /**
    A stream is created exactly when the chunk size is in range and a slot is
    reserved; then it is live under the id just minted.
  */
  lemma CreateStreamKeeps(w: World, blob: seq<Byte>, mode: Mode)
    requires StreamInv(w, [])
    ensures var (w', r) := CreateStream(w, blob, mode);
      && StreamInv(w', [])
      && (r.Ok? <==> ChunkInRange(w.s.chunkSize) && Reserve(w.b).1.Ok?)
      && (r.Ok? ==> r.value == w.b.next
                    && w' == World(Reserve(w.b).0, Created(w.s, w.b.next, blob, mode)))
      && (r.Err? ==> w'.s == w.s)
  {
    ReserveKeeps(w.b);
    var w' := CreateStream(w, blob, mode).0;
    if CreateStream(w, blob, mode).1.Ok? {
      CreatedKeeps(w, blob, mode);
    } else {
      forall x ensures Local(w', [], x) {
        assert Local(w, [], x);
        Frame(w, [], w', [], x);
      }
    }
  }

  lemma QueuedElsewhere(w: World, batch: seq<ChunkCompletion>, op: nat, x: nat)
    requires Valid(w.b) && op in w.s.cells && x != op
    ensures SameAt(w, batch, Queued(w, op), batch, x)
  {
    SetLiveDemandKeeps(w.b, op, true);
  }

  lemma QueuedOthers(w: World, batch: seq<ChunkCompletion>, op: nat)
    requires AllBut(w, batch, op) && op in w.s.cells
    ensures AllBut(Queued(w, op), batch, op)
  {
    SetLiveDemandKeeps(w.b, op, true);
    EndpointsKept(w.s, Queued(w, op).s);
    forall x | x != op ensures SameAt(w, batch, Queued(w, op), batch, x) {
      QueuedElsewhere(w, batch, op, x);
    }
    MoveAllBut(w, batch, Queued(w, op), batch, op);
  }

  lemma QueuedDemands(w: World, op: nat)
    requires op in w.s.cells && DemandsOk(w, op, []) && w.s.cells[op].generation == 1
    ensures DemandsOk(Queued(w, op), op, [])
  {
    var c := w.s.cells[op];
    var before := Numbers(w.s.log, op);
    assert before + [] == before;
    assert before + (c.queue + [c.nextSeq]) == Upto(c.nextSeq) + [c.nextSeq];
    assert Upto(c.nextSeq) + [c.nextSeq] == Upto(c.nextSeq + 1);
    forall i | 0 <= i < |c.queue| ensures c.queue[i] < c.nextSeq {
      assert (before + c.queue)[|before| + i] == c.queue[i];
    }
  }

  lemma QueuedRequests(w: World, batch: seq<ChunkCompletion>, op: nat)
    requires Valid(w.b) && RootOk(w, op) && w.s.cells[op].loaded <= |w.s.cells[op].blob| && RequestsOk(w, batch, op)
    ensures RootOk(Queued(w, op), op) && RequestsOk(Queued(w, op), batch, op)
    ensures At(Queued(w, op).b, op).live
  {
    SetLiveDemandKeeps(w.b, op, true);
    var c, c' := w.s.cells[op], Queued(w, op).s.cells[op];
    assert forall a :: GoodAnswer(c, op, a) == GoodAnswer(c', op, a);
  }

  lemma QueuedOwn(w: World, batch: seq<ChunkCompletion>, op: nat)
    requires Valid(w.b) && LiveCore(w, batch, op, [])
    ensures LiveCore(Queued(w, op), batch, op, []) && At(Queued(w, op).b, op).live
    ensures Queued(w, op).s.cells[op].queue != []
  {
    QueuedRequests(w, batch, op);
    QueuedDemands(w, op);
  }

  /** A further read behind one in flight only queues. */
  lemma QueuedBehind(w: World, batch: seq<ChunkCompletion>, op: nat, submit: Option<SubmitError>)
    requires AllBut(w, batch, op) && LiveCore(w, batch, op, []) && w.s.cells[op].inFlight
    requires w.s.cells[op].queue != [] && At(w.b, op).live
    ensures SubmitOrFail(w, op, submit) == w && StreamInv(w, batch)
  {
    Whole(w, batch, op);
  }

  lemma ReaderReadKeeps(w: World, batch: seq<ChunkCompletion>, reader: nat, submit: Option<SubmitError>)
    requires StreamInv(w, batch) && reader < |w.s.readers|
    ensures StreamInv(ReaderRead(w, reader, submit).0, batch)
  {
    var o := w.s.readers[reader];
    var op := o.op;
    if !o.released && op in w.s.ops && op in w.s.cells {
      assert LiveOk(w, batch, op) by {
        assert Local(w, batch, op);
      }
      QueuedOthers(w, batch, op);
      QueuedOwn(w, batch, op);
      var w1 := Queued(w, op);
      if w.s.cells[op].inFlight {
        QueuedBehind(w1, batch, op, submit);
      } else {
        SubmitKeeps(w1, batch, op, submit);
      }
    }
  }

  /**
    What `read()` hands back: a live stream owes a new promise; an ended one
    answers at once, replaying its stored error or done, and touches nothing.
  */
  lemma ReadAnswers(w: World, batch: seq<ChunkCompletion>, reader: nat, submit: Option<SubmitError>)
    requires StreamInv(w, batch) && reader < |w.s.readers| && !w.s.readers[reader].released
    ensures var op := w.s.readers[reader].op;
      var (w', r) := ReaderRead(w, reader, submit);
      && op in w.s.cells
      && (op in w.s.ops ==> r == Unsettled(ReadKey(op, w.s.cells[op].nextSeq)))
      && (op !in w.s.ops ==> r == Immediate(Closing(w.s.cells[op])) && w' == w)
  {
    assert Local(w, batch, w.s.readers[reader].op);
  }

  // ------------------------------------------------------- environment steps

  lemma AnsweredOwn(w: World, batch: seq<ChunkCompletion>, i: nat, failure: Option<FileApiError>)
    requires Valid(w.b) && i < |w.s.tasks| && w.s.tasks[i].op in w.s.cells
    requires LiveOk(w, batch, w.s.tasks[i].op)
    ensures LiveOk(WorkerAnswers(w, i, failure), batch, w.s.tasks[i].op)
  {
    var t := w.s.tasks[i];
    var w' := WorkerAnswers(w, i, failure);
    PickedRemove(w.s.tasks, i, TaskOp, t.op);
    var kind := Answer(w.s.cells[t.op].blob, t, failure);
    var answer := ChunkCompletion(t.op, t.generation, kind);
    PushStreamKeeps(w.b, answer);
    assert t == NextTask(w.s.cells[t.op], t.op);
    assert At(w'.b, t.op).streamQ == [answer];
    assert LiveCore(w', batch, t.op, []);
  }

  /** Workers answer in any order, at any moment, right or wrong. */
  lemma WorkerAnswersKeeps(w: World, batch: seq<ChunkCompletion>, i: nat, failure: Option<FileApiError>)
    requires StreamInv(w, batch) && i < |w.s.tasks| && w.s.tasks[i].op in w.s.cells
    ensures StreamInv(WorkerAnswers(w, i, failure), batch)
  {
    var t := w.s.tasks[i];
    var w' := WorkerAnswers(w, i, failure);
    PushStreamKeeps(w.b, ChunkCompletion(t.op, t.generation, Answer(w.s.cells[t.op].blob, t, failure)));
    forall x | x != t.op ensures SameAt(w, batch, w', batch, x) {
      PickedRemove(w.s.tasks, i, TaskOp, x);
    }
    assert Local(w, batch, t.op);
    if t.op in w.s.ops {
      AnsweredOwn(w, batch, i, failure);
    } else {
      assert DeadOk(w', t.op);
    }
    EndpointsKept(w.s, w'.s);
    Rebuild(w, batch, w', batch, t.op);
  }

  /** Draining the stream queues moves the requests into the batch, nothing else. */
  lemma TakeStreamMoves(w: World)
    requires StreamInv(w, [])
    ensures var (b', batch) := TakeStream(w.b);
      StreamInv(w.(b := b'), batch)
  {
    var (b', batch) := TakeStream(w.b);
    var w' := w.(b := b');
    TakeStreamKeeps(w.b);
    forall x ensures Local(w', batch, x) {
      assert Local(w, [], x);
      if x in w.s.cells && x in w.s.ops {
        assert At(w.b, x).ordered && x in w.b.order;
        assert Of(batch, x) == At(w.b, x).streamQ;
        assert LiveCore(w', batch, x, []);
      }
    }
  }

  // ------------------------------------------------------------ cleanup sweep

  lemma SyncAllKeeps(w: World, batch: seq<ChunkCompletion>)
    requires StreamInv(w, batch)
    ensures StreamInv(SyncAll(w), batch)
    ensures forall op :: op in w.s.ops ==> Synced(SyncAll(w), op)
  {
    var s' := SyncAll(w).s;
    forall x | x in s'.ops && x in s'.cells && s'.cells[x].readerAlive
      ensures Held(s', x)
    {
      StillHeld(w.s, s', x);
    }
    EndpointMoves(w, batch, s');
  }

  /** The table entries of `op` say what its endpoint signals say. */
  predicate Synced(w: World, op: nat) {
    op in w.s.cells ==>
      && w.s.cells[op].streamRegistered == w.s.cells[op].streamAlive
      && w.s.cells[op].readerRegistered == w.s.cells[op].readerAlive
  }

  /** Something outside the runtime can still reach a result of `op`. */
  ghost predicate Rooted(s: StreamState, op: nat)
    requires op in s.cells
  {
    var c := s.cells[op];
    c.streamAlive || (c.readerAlive && Held(s, op)) || c.queue != []
  }

  /** One sweep step ends exactly the unrooted operation, and touches no other. */
  lemma TryAbandonExactly(w: World, batch: seq<ChunkCompletion>, op: nat)
    requires StreamInv(w, batch) && Synced(w, op)
    ensures var w' := TryAbandon(w, op);
      && w'.s.readers == w.s.readers
      && w'.s.ops.Keys == (if op in w.s.ops && op in w.s.cells && !Rooted(w.s, op)
                           then w.s.ops.Keys - {op} else w.s.ops.Keys)
      && w'.s.cells.Keys == w.s.cells.Keys
      && forall x :: x in w'.s.ops && x in w'.s.cells ==> w'.s.cells[x] == w.s.cells[x]
  {
    assert Local(w, batch, op);
    if op in w.s.ops {
      NoDemandLeft(w, batch, op);
      if Abandonable(w.s.cells[op]) {
        LiveDrainable(w, batch, op, []);
        AbandonForm(w, op);
      }
    }
  }

  /** Which live streams a sweep leaves. */
  lemma {:induction false} AbandonAllExactly(w: World, batch: seq<ChunkCompletion>, ids: seq<nat>)
    requires StreamInv(w, batch)
    requires forall op :: op in w.s.ops ==> Synced(w, op)
    ensures var w' := AbandonAll(w, ids);
      && StreamInv(w', batch)
      && w'.s.readers == w.s.readers && w'.s.ops.Keys <= w.s.ops.Keys
      && w'.s.cells.Keys == w.s.cells.Keys
      && (forall x :: x in w'.s.ops && x in w'.s.cells ==> w'.s.cells[x] == w.s.cells[x])
      && (forall x :: x in w.s.ops && x in w.s.cells ==>
            (x in w'.s.ops <==> x !in ids || Rooted(w.s, x)))
    decreases |ids|
  {
    if ids != [] {
      var op := ids[0];
      var w1 := TryAbandon(w, op);
      TryAbandonKeeps(w, batch, op);
      if op in w.s.ops {
        TryAbandonExactly(w, batch, op);
      }
      AbandonAllExactly(w1, batch, ids[1..]);
      SweepSplit(w, w1, AbandonAll(w1, ids[1..]), ids);
    }
  }

  lemma SweepSplit(w: World, w1: World, w': World, ids: seq<nat>)
    requires ids != [] && w1.s.readers == w.s.readers && w1.s.cells.Keys == w.s.cells.Keys
    requires w1.s.ops.Keys == (if ids[0] in w.s.ops && ids[0] in w.s.cells && !Rooted(w.s, ids[0])
                               then w.s.ops.Keys - {ids[0]} else w.s.ops.Keys)
    requires forall x :: x in w1.s.ops && x in w1.s.cells ==> w1.s.cells[x] == w.s.cells[x]
    requires w'.s.ops.Keys <= w1.s.ops.Keys
    requires forall x :: x in w1.s.ops && x in w1.s.cells ==> (x in w'.s.ops <==> x !in ids[1..] || Rooted(w1.s, x))
    ensures forall x :: x in w.s.ops && x in w.s.cells ==> (x in w'.s.ops <==> x !in ids || Rooted(w.s, x))
  {
    assert ids == [ids[0]] + ids[1..];
    forall x | x in w1.s.ops && x in w1.s.cells
      ensures Rooted(w1.s, x) == Rooted(w.s, x)
    {
      assert Held(w1.s, x) == Held(w.s, x);
    }
  }

  /** A sweep over every live operation, however the table lists them. */
  ghost predicate Covers(ids: seq<nat>, s: StreamState) {
    forall op :: op in s.ops ==> op in ids
  }

  lemma DrainCleanupsKeeps(w: World, batch: seq<ChunkCompletion>, ids: seq<nat>)
    requires StreamInv(w, batch)
    ensures StreamInv(DrainCleanups(w, ids), batch)
  {
    SyncAllKeeps(w, batch);
    AbandonAllExactly(SyncAll(w), batch, ids);
  }

  /**
    No leak: a cleanup sweep ends exactly the live streams that nothing can
    reach any more: no live stream object, no unsignalled reader object and no
    unsettled read.
  */
  lemma SweepLeavesNoLeak(w: World, batch: seq<ChunkCompletion>, ids: seq<nat>)
    requires StreamInv(w, batch) && Covers(ids, w.s)
    ensures var w' := DrainCleanups(w, ids);
      && (forall op :: op in w'.s.ops ==> op in w'.s.cells && Rooted(w'.s, op))
      && (forall op :: op in w.s.ops && op in w.s.cells ==> (op in w'.s.ops <==> Rooted(w.s, op)))
  {
    var w1 := SyncAll(w);
    var w' := DrainCleanups(w, ids);
    SyncAllKeeps(w, batch);
    AbandonAllExactly(w1, batch, ids);
    forall op | op in w.s.ops && op in w.s.cells
      ensures Rooted(w1.s, op) == Rooted(w.s, op)
      ensures op in w'.s.ops ==> Rooted(w'.s, op) == Rooted(w1.s, op)
    {
      assert Held(w1.s, op) == Held(w.s, op);
      assert Held(w'.s, op) == Held(w1.s, op);
    }
    forall op | op in w'.s.ops
      ensures op in w'.s.cells && Rooted(w'.s, op)
    {
      assert Local(w, batch, op);
    }
  }
}
