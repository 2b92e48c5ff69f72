/**
  The moves of one operation's work token between worker, queue, batch and
  pump job, and of the running pump job itself.
*/
module ReaderTurns {
  import opened Common
  import opened Bridge
  import opened Readers
  import opened ReaderLaws
  import opened ReaderMoves
  import opened ReaderEnds

  /** A live operation's entry, for a job or completion that names it. */
  ghost predicate Owns(f: ReaderState, op: nat, r: nat, g: nat) {
    op in f.pending && f.pending[op] == PendingOp(r, g)
  }

  lemma OwnsOnly(m: Room, batch: seq<ChunkCompletion>, busy: Option<nat>, op: nat, r: nat, g: nat)
    requires Live(m, batch, busy) && Owns(m.f, op, r, g)
    ensures OpOk(m, batch, busy, op) && r < |m.f.natives| && ReaderOk(m, r) && 0 < op && 0 < g
    ensures OwnOnly(m.f, m.f, r, op) && OwnGeneration(m.f, r, g) && GenLocal(m, g)
    ensures m.f.natives[r].generation == g && m.f.natives[r].ready.Loading?
  {
    LoadingHas(m, batch, busy, r, op);
    assert RootOk(m, op);
  }

  /** Only where requests, jobs and stored packaging states are differs. */
  ghost predicate SameBooks(f: ReaderState, f': ReaderState) {
    f' == f.(jobs := f'.jobs, pumps := f'.pumps, tasks := f'.tasks)
  }

  lemma SameBooksReader(m: Room, m': Room, r: nat)
    requires r < |m.f.natives| && ReaderOk(m, r) && SameBooks(m.f, m'.f)
    requires forall h :: TermsOf(m', h) == TermsOf(m, h) && EndsOf(m', h) == EndsOf(m, h)
    ensures ReaderOk(m', r)
  {
    hide PhaseOf, TermsOf, EndsOf;
    var g := m.f.natives[r].generation;
    forall j | TermGood(m.f, r, g, j) ensures TermGood(m'.f, r, g, j) {
    }
  }

  lemma SameBooksBasics(f: ReaderState, f': ReaderState)
    requires Basics(f) && PublishedOk(f) && SameBooks(f, f')
    ensures Basics(f') && PublishedOk(f')
  {
    hide PhaseOf, FinalAt;
    forall i | 0 <= i < |f'.published| ensures PublicationOk(f', f'.published[i]) {
      assert PublicationOk(f, f.published[i]);
    }
  }

  lemma SameBooksGen(m: Room, m': Room, g: nat)
    requires GenLocal(m, g) && SameBooks(m.f, m'.f)
    requires TermsOf(m', g) == TermsOf(m, g) && EndsOf(m', g) == EndsOf(m, g)
    ensures GenLocal(m', g)
  {
  }

  lemma OkIsLocal(m: Room, batch: seq<ChunkCompletion>, busy: Option<nat>, op: nat)
    requires op in m.f.pending && OpOk(m, batch, busy, op)
    ensures OpLocal(m, batch, busy, op)
  {
  }

  /** The work token of a live operation changes hands: nothing but its own facts is at stake. */
  lemma TokenMoved(m: Room, batch: seq<ChunkCompletion>, busy: Option<nat>,
                   m': Room, batch': seq<ChunkCompletion>, busy': Option<nat>, op: nat, r: nat, g: nat)
    requires Live(m, batch, busy) && Owns(m.f, op, r, g)
    requires Delta(m, batch, m', batch', r, op, g) && SameBooks(m.f, m'.f)
    requires forall h :: TermsOf(m', h) == TermsOf(m, h) && EndsOf(m', h) == EndsOf(m, h)
    requires Valid(m'.b) && !m'.b.shutdown
    requires forall x :: x != op ==> (busy == Some(x) <==> busy' == Some(x))
    requires OpOk(m', batch', busy', op)
    ensures Live(m', batch', busy')
  {
    hide Live, OpOk, ReaderOk, Delta, Basics, PublishedOk, OpLocal, GenLocal, Valid, OwnGeneration;
    OwnsOnly(m, batch, busy, op, r, g);
    LiveBooks(m, batch, busy);
    SameBooksReader(m, m', r);
    SameBooksBasics(m.f, m'.f);
    SameBooksGen(m, m', g);
    OkIsLocal(m', batch', busy', op);
    Moved(m, batch, busy, m', batch', busy', r, op, g);
  }

  // ----------------------------------------------------- the running pump job

  /** While its pump runs, the stored state of an operation means nothing. */
  lemma StoredKeeps(m: Room, batch: seq<ChunkCompletion>, busy: Option<nat>, op: nat, s: PumpState)
    requires Live(m, batch, busy) && (op in m.f.pending ==> busy == Some(op))
    ensures Live(Stored(m, op, s), batch, busy)
  {
    var m' := Stored(m, op, s);
    SameJobs(m, m');
    forall x ensures OpLocal(m', batch, busy, x) {
      assert OpLocal(m, batch, busy, x);
      if x != op {
        OpFrame(m, batch, busy, m', batch, busy, x);
      } else if op in m.f.pending {
        IdleWork(m, batch, op);
        assert RootOk(m', op);
      }
    }
    forall q | 0 <= q < |m'.f.natives| ensures ReaderOk(m', q) {
      assert ReaderOk(m, q);
      ReaderFrame(m, m', q);
    }
    forall g ensures GenLocal(m', g) {
      assert GenLocal(m, g);
    }
  }

  lemma IdleWork(m: Room, batch: seq<ChunkCompletion>, op: nat)
    requires op in m.f.pending && OpOk(m, batch, Some(op), op)
    ensures TasksOf(m, op) == [] && PumpsOf(m, op) == [] && Of(batch, op) == [] && At(m.b, op).readerQ == []
  {
  }

  lemma LoadedOwn(m: Room, batch: seq<ChunkCompletion>, op: nat, r: nat, g: nat, loaded: nat)
    requires Owns(m.f, op, r, g) && r < |m.f.natives| && OpOk(m, batch, Some(op), op)
    requires ReaderOk(m, r) && Basics(m.f) && PublishedOk(m.f) && GenLocal(m, g) && m.f.natives[r].ready.Loading?
    ensures var m' := WithNative(m, r, m.f.natives[r].(loaded := loaded));
      && OpOk(m', batch, Some(op), op) && ReaderOk(m', r) && Basics(m'.f) && PublishedOk(m'.f) && GenLocal(m', g)
  {
    hide PhaseOf;
    var m' := WithNative(m, r, m.f.natives[r].(loaded := loaded));
    SameJobs(m, m');
    IdleWork(m, batch, op);
    assert RootOk(m', op);
    forall i | 0 <= i < |m'.f.published| ensures PublicationOk(m'.f, m'.f.published[i]) {
      assert PublicationOk(m.f, m.f.published[i]);
    }
  }

  lemma LoadedKeeps(m: Room, batch: seq<ChunkCompletion>, op: nat, r: nat, g: nat, loaded: nat)
    requires Live(m, batch, Some(op)) && Owns(m.f, op, r, g) && r < |m.f.natives|
    ensures Live(WithNative(m, r, m.f.natives[r].(loaded := loaded)), batch, Some(op))
  {
    hide Live, OpOk, OpLocal, ReaderOk, Basics, PublishedOk, GenLocal, Valid;
    var m' := WithNative(m, r, m.f.natives[r].(loaded := loaded));
    OwnsOnly(m, batch, Some(op), op, r, g);
    LiveBooks(m, batch, Some(op));
    SameJobs(m, m');
    LoadedOwn(m, batch, op, r, g, loaded);
    OkIsLocal(m', batch, Some(op), op);
    Moved(m, batch, Some(op), m', batch, Some(op), r, op, g);
  }

  /** The next request is out and the packaging state stored: the token is with the worker. */
  function Submitted(m: Room, op: nat, g: nat, s: PumpState): Room
    requires op in m.f.payloads && s.loaded <= |m.f.payloads[op]|
  {
    m.(f := m.f.(pumps := m.f.pumps[op := s], tasks := m.f.tasks + [NextTask(op, g, m.f.payloads[op], s)]))
  }

  lemma SubmittedDelta(m: Room, batch: seq<ChunkCompletion>, op: nat, r: nat, g: nat, s: PumpState)
    requires op in m.f.payloads && s.loaded <= |m.f.payloads[op]| && r < |m.f.natives|
    ensures Delta(m, batch, Submitted(m, op, g, s), batch, r, op, g)
    ensures TasksOf(Submitted(m, op, g, s), op) == TasksOf(m, op) + [NextTask(op, g, m.f.payloads[op], s)]
  {
    var t := NextTask(op, g, m.f.payloads[op], s);
    SameJobs(m, Submitted(m, op, g, s));
    forall x ensures TasksOf(Submitted(m, op, g, s), x) == TasksOf(m, x) + (if x == op then [t] else []) {
      PickedAppend(m.f.tasks, t, TaskOp, x);
    }
  }

  lemma SubmittedOwn(m: Room, batch: seq<ChunkCompletion>, op: nat, r: nat, g: nat, s: PumpState)
    requires Owns(m.f, op, r, g) && OpOk(m, batch, Some(op), op) && op in m.f.payloads
    requires PumpGood(m.f, r, g, s) && s.loaded <= |m.f.payloads[op]|
    ensures OpOk(Submitted(m, op, g, s), batch, None, op)
  {
    hide PhaseOf;
    var m' := Submitted(m, op, g, s);
    IdleWork(m, batch, op);
    SubmittedDelta(m, batch, op, r, g, s);
    SameJobs(m, m');
    assert PumpGood(m'.f, r, g, s);
    assert RootOk(m', op);
  }

  lemma SubmittedBooks(m: Room, op: nat, g: nat, s: PumpState)
    requires op in m.f.payloads && s.loaded <= |m.f.payloads[op]|
    ensures SameBooks(m.f, Submitted(m, op, g, s).f) && Submitted(m, op, g, s).b == m.b
    ensures forall h :: TermsOf(Submitted(m, op, g, s), h) == TermsOf(m, h)
    ensures forall h :: EndsOf(Submitted(m, op, g, s), h) == EndsOf(m, h)
  {
    SameJobs(m, Submitted(m, op, g, s));
  }

  lemma SubmittedKeeps(m: Room, batch: seq<ChunkCompletion>, op: nat, r: nat, g: nat, s: PumpState)
    requires Live(m, batch, Some(op)) && Owns(m.f, op, r, g) && op in m.f.payloads
    requires PumpGood(m.f, r, g, s) && s.loaded <= |m.f.payloads[op]|
    ensures Live(Submitted(m, op, g, s), batch, None)
  {
    hide Live, Delta, SameBooks, PumpGood, Valid, OpOk;
    var m' := Submitted(m, op, g, s);
    OwnsOnly(m, batch, Some(op), op, r, g);
    LiveBooks(m, batch, Some(op));
    SubmittedDelta(m, batch, op, r, g, s);
    SubmittedOwn(m, batch, op, r, g, s);
    SubmittedBooks(m, op, g, s);
    TokenMoved(m, batch, Some(op), m', batch, None, op, r, g);
  }

  lemma EnqueuedPumpDelta(m: Room, batch: seq<ChunkCompletion>, op: nat, r: nat, g: nat, s: PumpState, chunk: ChunkKind)
    requires r < |m.f.natives|
    ensures Delta(m, batch, Enqueued(m, Pump(r, g, op, s, chunk)), batch, r, op, g)
    ensures PumpsOf(Enqueued(m, Pump(r, g, op, s, chunk)), op) == PumpsOf(m, op) + [Pump(r, g, op, s, chunk)]
    ensures forall h :: TermsOf(Enqueued(m, Pump(r, g, op, s, chunk)), h) == TermsOf(m, h)
    ensures forall h :: EndsOf(Enqueued(m, Pump(r, g, op, s, chunk)), h) == EndsOf(m, h)
  {
    var j := Pump(r, g, op, s, chunk);
    var m' := Enqueued(m, j);
    forall x ensures PumpsOf(m', x) == PumpsOf(m, x) + (if x == op then [j] else []) {
      EnqueuedViews(m, j, x, 0);
    }
    forall h ensures TermsOf(m', h) == TermsOf(m, h) && EndsOf(m', h) == EndsOf(m, h) {
      EnqueuedViews(m, j, 0, h);
    }
  }

  lemma EnqueuedPumpOwn(m: Room, batch: seq<ChunkCompletion>, op: nat, r: nat, g: nat, s: PumpState, chunk: ChunkKind)
    requires Owns(m.f, op, r, g) && OpOk(m, batch, Some(op), op) && r < |m.f.natives|
    requires PumpGood(m.f, r, g, s) && GoodChunk(m.f.asked[g], op, g, s, chunk)
    ensures OpOk(Enqueued(m, Pump(r, g, op, s, chunk)), batch, None, op)
  {
    var j := Pump(r, g, op, s, chunk);
    var m' := Enqueued(m, j);
    IdleWork(m, batch, op);
    EnqueuedPumpDelta(m, batch, op, r, g, s, chunk);
    assert PumpsOf(m', op) == [j] && TasksOf(m', op) == [] && At(m'.b, op).readerQ == [];
    PumpSameParts(m.f, m'.f, r, g, s);
    assert RootOk(m', op);
  }

  /** The token goes into a pump job. */
  lemma EnqueuedPumpKeeps(m: Room, batch: seq<ChunkCompletion>, op: nat, r: nat, g: nat, s: PumpState, chunk: ChunkKind)
    requires Live(m, batch, Some(op)) && Owns(m.f, op, r, g)
    requires PumpGood(m.f, r, g, s) && GoodChunk(m.f.asked[g], op, g, s, chunk)
    ensures Live(Enqueued(m, Pump(r, g, op, s, chunk)), batch, None)
  {
    hide Live, Delta, PumpGood, GoodChunk, Valid, OpOk;
    var m' := Enqueued(m, Pump(r, g, op, s, chunk));
    OwnsOnly(m, batch, Some(op), op, r, g);
    LiveBooks(m, batch, Some(op));
    EnqueuedPumpDelta(m, batch, op, r, g, s, chunk);
    EnqueuedPumpOwn(m, batch, op, r, g, s, chunk);
    TokenMoved(m, batch, Some(op), m', batch, None, op, r, g);
  }

  // ---------------------------------------------------- workers and completions

  lemma BatchHead(c: ChunkCompletion, rest: seq<ChunkCompletion>, x: nat)
    ensures Of([c] + rest, x) == (if c.op == x then [c] else []) + Of(rest, x)
  {
    assert ([c] + rest)[1..] == rest;
  }

  /** A completion of no live operation is dropped without a trace. */
  lemma StaleKeeps(m: Room, c: ChunkCompletion, rest: seq<ChunkCompletion>, busy: Option<nat>)
    requires Live(m, [c] + rest, busy) && c.op !in m.f.pending
    ensures Live(m, rest, busy)
  {
    forall x ensures OpLocal(m, rest, busy, x) {
      assert OpLocal(m, [c] + rest, busy, x);
      BatchHead(c, rest, x);
      if x != c.op {
        OpFrame(m, [c] + rest, busy, m, rest, busy, x);
      }
    }
  }

  /** The head completion is taken in hand. */
  lemma BatchTaken(m: Room, c: ChunkCompletion, rest: seq<ChunkCompletion>)
    requires Live(m, [c] + rest, None) && c.op in m.f.pending
    ensures Live(m, rest, Some(c.op))
    ensures var PendingOp(r, g) := m.f.pending[c.op];
      && c.generation == g && StoredOk(m, c.op)
      && GoodChunk(m.f.asked[g], c.op, g, m.f.pumps[c.op], c.kind)
      && Current(m.f, r, g)
  {
    var op := c.op;
    var PendingOp(r, g) := m.f.pending[op];
    OwnsOnly(m, [c] + rest, None, op, r, g);
    BatchHead(c, rest, op);
    assert c in Of([c] + rest, op);
    forall x ensures OpLocal(m, rest, Some(op), x) {
      assert OpLocal(m, [c] + rest, None, x);
      BatchHead(c, rest, x);
      if x != op {
        OpFrame(m, [c] + rest, None, m, rest, Some(op), x);
      }
    }
  }

  /** Without the stored state of the operation in hand. */
  lemma UnstoredKeeps(m: Room, batch: seq<ChunkCompletion>, op: nat)
    requires Live(m, batch, Some(op)) && op in m.f.pending
    ensures Live(m.(f := m.f.(pumps := m.f.pumps - {op})), batch, Some(op))
  {
    var m' := m.(f := m.f.(pumps := m.f.pumps - {op}));
    SameJobs(m, m');
    forall x ensures OpLocal(m', batch, Some(op), x) {
      assert OpLocal(m, batch, Some(op), x);
      if x != op {
        OpFrame(m, batch, Some(op), m', batch, Some(op), x);
      } else {
        IdleWork(m, batch, op);
        assert RootOk(m', op);
      }
    }
    forall q | 0 <= q < |m'.f.natives| ensures ReaderOk(m', q) {
      assert ReaderOk(m, q);
      ReaderFrame(m, m', q);
    }
    forall g ensures GenLocal(m', g) {
      assert GenLocal(m, g);
    }
  }

  /**
    A drained completion of a live operation always turns into exactly one
    pump job; every other completion changes nothing.
  */
  lemma SettleKeeps(m: Room, c: ChunkCompletion, rest: seq<ChunkCompletion>)
    requires Live(m, [c] + rest, None)
    ensures Live(Settle(m, c), rest, None)
    ensures c.op in m.f.pending ==> |Settle(m, c).f.jobs| == |m.f.jobs| + 1
    ensures c.op !in m.f.pending ==> Settle(m, c) == m
  {
    if c.op !in m.f.pending {
      StaleKeeps(m, c, rest, None);
    } else {
      var op := c.op;
      var PendingOp(r, g) := m.f.pending[op];
      BatchTaken(m, c, rest);
      var s := m.f.pumps[op];
      UnstoredKeeps(m, rest, op);
      var m1 := m.(f := m.f.(pumps := m.f.pumps - {op}));
      assert PumpGood(m1.f, r, g, s);
      EnqueuedPumpKeeps(m1, rest, op, r, g, s, c.kind);
    }
  }

  /** The token goes into the bridge queue. */
  lemma QueuedKeeps(m: Room, batch: seq<ChunkCompletion>, c: ChunkCompletion, b': BridgeState)
    requires Live(m, batch, Some(c.op)) && c.op in m.f.pending && StoredOk(m, c.op)
    requires var PendingOp(r, g) := m.f.pending[c.op];
      c.generation == g && g in m.f.asked && GoodChunk(m.f.asked[g], c.op, g, m.f.pumps[c.op], c.kind)
    requires Valid(b') && !b'.shutdown && b'.next == m.b.next && b'.tokens == m.b.tokens
    requires forall x :: x != c.op ==> At(b', x) == At(m.b, x)
    requires exists marked :: At(b', c.op) == At(m.b, c.op).(marked := marked, readerQ := [c])
    ensures Live(m.(b := b'), batch, None)
  {
    var op := c.op;
    var PendingOp(r, g) := m.f.pending[op];
    var m' := m.(b := b');
    OwnsOnly(m, batch, Some(op), op, r, g);
    IdleWork(m, batch, op);
    SameJobs(m, m');
    assert RootOk(m', op);
    assert OpOk(m', batch, None, op);
    assert ReaderOk(m', r);
    Moved(m, batch, Some(op), m', batch, None, r, op, g);
  }

  /** Over budget, a completion goes back in front of its (empty) queue: nothing is lost or reordered. */
  lemma RequeueKeeps(m: Room, c: ChunkCompletion, rest: seq<ChunkCompletion>)
    requires Live(m, [c] + rest, None)
    ensures Live(m.(b := RequeueReader(m.b, c)), rest, None)
    ensures c.op in m.f.pending ==> At(RequeueReader(m.b, c), c.op).readerQ == [c]
  {
    RequeueReaderKeeps(m.b, c);
    if c.op in m.f.pending {
      BatchTaken(m, c, rest);
      var PendingOp(r, g) := m.f.pending[c.op];
      OwnsOnly(m, rest, Some(c.op), c.op, r, g);
      IdleWork(m, rest, c.op);
      assert At(RequeueReader(m.b, c), c.op) == At(m.b, c.op).(marked := At(m.b, c.op).marked, readerQ := [c]);
      QueuedKeeps(m, rest, c, RequeueReader(m.b, c));
    } else {
      StaleKeeps(m, c, rest, None);
      OtherClientMoved(m, RequeueReader(m.b, c), rest, None);
    }
  }

  lemma AnsweredOthers(m: Room, batch: seq<ChunkCompletion>, i: nat, failure: Option<FileApiError>, r: nat, g: nat)
    requires Valid(m.b) && i < |m.f.tasks| && r < |m.f.natives|
    ensures Delta(m, batch, WorkerAnswers(m, i, failure), batch, r, m.f.tasks[i].op, g)
  {
    var t := m.f.tasks[i];
    var m' := WorkerAnswers(m, i, failure);
    PushReaderKeeps(m.b, ChunkCompletion(t.op, t.generation, Answer(t, failure)));
    SameJobs(m, m');
    forall x | x != t.op ensures TasksOf(m', x) == TasksOf(m, x) {
      PickedRemove(m.f.tasks, i, TaskOp, x);
    }
  }

  /** The answer to the one request is a good completion for the same state. */
  lemma AnsweredOwn(m: Room, batch: seq<ChunkCompletion>, busy: Option<nat>, i: nat, failure: Option<FileApiError>)
    requires Valid(m.b) && i < |m.f.tasks| && m.f.tasks[i].op in m.f.pending && 0 < m.f.tasks[i].op
    requires OpOk(m, batch, busy, m.f.tasks[i].op)
    ensures OpOk(WorkerAnswers(m, i, failure), batch, busy, m.f.tasks[i].op)
  {
    var t := m.f.tasks[i];
    var op := t.op;
    var m' := WorkerAnswers(m, i, failure);
    var PendingOp(r, g) := m.f.pending[op];
    var c := ChunkCompletion(op, t.generation, Answer(t, failure));
    PushReaderKeeps(m.b, c);
    PickedRemove(m.f.tasks, i, TaskOp, op);
    assert t in TasksOf(m, op) && |TasksOf(m, op)| == 1;
    SameJobs(m, m');
    assert TasksOf(m', op) == [] && At(m'.b, op).readerQ == [c] && PumpsOf(m', op) == [];
    assert PumpGood(m'.f, r, g, m'.f.pumps[op]);
    assert RootOk(m', op);
  }

  /** The answer to a request nobody waits for any more is dropped. */
  lemma AnsweredStale(m: Room, batch: seq<ChunkCompletion>, busy: Option<nat>, i: nat, failure: Option<FileApiError>)
    requires Live(m, batch, busy) && i < |m.f.tasks| && m.f.tasks[i].op !in m.f.pending
    ensures Live(WorkerAnswers(m, i, failure), batch, busy)
  {
    var op := m.f.tasks[i].op;
    var m' := WorkerAnswers(m, i, failure);
    PushReaderKeeps(m.b, ChunkCompletion(op, m.f.tasks[i].generation, Answer(m.f.tasks[i], failure)));
    SameJobs(m, m');
    forall x ensures OpLocal(m', batch, busy, x) {
      assert OpLocal(m, batch, busy, x);
      PickedRemove(m.f.tasks, i, TaskOp, x);
      if x != op {
        OpFrame(m, batch, busy, m', batch, busy, x);
      }
    }
    forall q | 0 <= q < |m'.f.natives| ensures ReaderOk(m', q) {
      assert ReaderOk(m, q);
      ReaderFrame(m, m', q);
    }
    forall g ensures GenLocal(m', g) {
      assert GenLocal(m, g);
    }
  }

  /** Workers answer at any time, in any order, truthfully or with an error. */
  lemma WorkerAnswersKeeps(m: Room, batch: seq<ChunkCompletion>, busy: Option<nat>, i: nat, failure: Option<FileApiError>)
    requires Live(m, batch, busy) && i < |m.f.tasks|
    ensures Live(WorkerAnswers(m, i, failure), batch, busy)
  {
    hide Live, Delta, PumpGood, Valid, OpOk, PushReader, Answer;
    var op := m.f.tasks[i].op;
    var m' := WorkerAnswers(m, i, failure);
    if op in m.f.pending {
      var PendingOp(r, g) := m.f.pending[op];
      LiveBooks(m, batch, busy);
      OwnsOnly(m, batch, busy, op, r, g);
      PushReaderKeeps(m.b, ChunkCompletion(op, m.f.tasks[i].generation, Answer(m.f.tasks[i], failure)));
      SameJobs(m, m');
      AnsweredOthers(m, batch, i, failure, r, g);
      AnsweredOwn(m, batch, busy, i, failure);
      TokenMoved(m, batch, busy, m', batch, busy, op, r, g);
    } else {
      AnsweredStale(m, batch, busy, i, failure);
    }
  }

  /** Draining moves every live operation's completion into the batch, nothing else. */
  lemma TakeReaderMoves(m: Room)
    requires Live(m, [], None)
    requires forall x: nat :: x in m.b.tokens && x !in m.f.pending ==> At(m.b, x).readerQ == []
    ensures var (b', batch) := TakeReader(m.b);
      Live(m.(b := b'), batch, None)
  {
    var (b', batch) := TakeReader(m.b);
    var m' := m.(b := b');
    TakeReaderKeeps(m.b);
    SameJobs(m, m');
    forall x: nat ensures OpLocal(m', batch, None, x) {
      assert OpLocal(m, [], None, x);
      assert Of([], x) == [];
      if x in m.f.pending {
        assert At(m.b, x).ordered && x in m.b.order;
        assert Of(batch, x) == At(m.b, x).readerQ;
        assert RootOk(m', x);
        DrainedOp(m, m', batch, x);
      } else {
        assert x >= m.b.next ==> x !in m.b.order;
      }
    }
    forall q | 0 <= q < |m'.f.natives| ensures ReaderOk(m', q) {
      assert ReaderOk(m, q);
      ReaderFrame(m, m', q);
    }
    forall g ensures GenLocal(m', g) {
      assert GenLocal(m, g);
    }
  }

  lemma DrainedOp(m: Room, m': Room, batch: seq<ChunkCompletion>, x: nat)
    requires x in m.f.pending && OpOk(m, [], None, x) && m' == m.(b := m'.b)
    requires RootOk(m', x) && At(m'.b, x) == At(m.b, x).(readerQ := []) && Of(batch, x) == At(m.b, x).readerQ
    ensures OpOk(m', batch, None, x)
  {
    SameJobs(m, m');
    assert Of([], x) == [];
    var PendingOp(r, g) := m.f.pending[x];
    if x in m.f.pumps && PumpGood(m.f, r, g, m.f.pumps[x]) {
      PumpSameParts(m.f, m'.f, r, g, m.f.pumps[x]);
    }
  }

  /** A fresh FileReader object owns nothing. */
  function NewReader(m: Room): Room {
    m.(f := m.f.(natives := m.f.natives + [FRESH_NATIVE]))
  }

  lemma NewReaderKeeps(m: Room, batch: seq<ChunkCompletion>, busy: Option<nat>)
    requires Live(m, batch, busy)
    ensures Live(NewReader(m), batch, busy)
  {
    var m' := NewReader(m);
    SameJobs(m, m');
    var n := |m.f.natives|;
    forall x ensures OpLocal(m', batch, busy, x) {
      assert OpLocal(m, batch, busy, x);
      OpFrame(m, batch, busy, m', batch, busy, x);
    }
    forall x | x in m.f.pending ensures m.f.pending[x].reader < n {
      assert OpLocal(m, batch, busy, x);
      assert RootOk(m, x);
    }
    forall q | 0 <= q < |m'.f.natives| ensures ReaderOk(m', q) {
      if q < n {
        assert ReaderOk(m, q);
        ReaderFrame(m, m', q);
      }
    }
    forall g ensures GenLocal(m', g) {
      assert GenLocal(m, g);
    }
  }
}
