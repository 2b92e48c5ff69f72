/**
  Whole turns of the FileReader machine: a job runs to its event, handlers run,
  the job resumes. `FrameOk` is what a suspended call relies on meanwhile.
*/
module ReaderSteps {
  import opened Common
  import opened Bridge
  import opened Readers
  import opened ReaderLaws
  import opened ReaderMoves
  import opened ReaderEnds
  import opened ReaderTurns

  // ------------------------------------------------------------------- frames

  /** Packaging state between the final progress event and publication. */
  ghost predicate FinalGood(f: ReaderState, r: nat, g: nat, s: PumpState) {
    && r < |f.natives| && g in f.asked
    && s.total == |f.asked[g]| == f.natives[r].total && s.buffered == f.asked[g]
    && PhaseOf(f.log, g) == Complete(r, s.total)
  }

  /** A settled reader whose terminal event has just fired. */
  ghost predicate JustEnded(m: Room, r: nat, g: nat, loaded: nat, total: nat) {
    && Current(m.f, r, g) && 0 < g
    && m.f.natives[r].ready.Done? && !m.f.natives[r].terminalDispatched
    && TermsOf(m, g) == [] && EndsOf(m, g) == []
    && PhaseOf(m.f.log, g) == Ended(r, loaded, total)
  }

  /** The stored state never runs ahead of the frame's own. */
  ghost predicate StoreBehind(f: ReaderState, op: nat, s: PumpState) {
    op in f.pumps ==> f.pumps[op].lastProgressAt == s.lastProgressAt && !f.pumps[op].finalProgressSent
  }

  ghost predicate FrameOk(m: Room, fr: Frame) {
    var Frame(r, g, op, now, pause) := fr;
    && 0 < g
    && (op in m.f.pending ==> Owns(m.f, op, r, g))
    && (Current(m.f, r, g) ==>
          match pause
          case AfterLoadstart(s, chunk) =>
            && Owns(m.f, op, r, g) && PumpGood(m.f, r, g, s) && StoreBehind(m.f, op, s)
            && GoodChunk(m.f.asked[g], op, g, s, chunk)
          case AfterProgress(s) => Owns(m.f, op, r, g) && PumpGood(m.f, r, g, s) && s.loadstartSent && s.loaded < s.total
          case AfterFinal(s) => Owns(m.f, op, r, g) && FinalGood(m.f, r, g, s)
          case AfterTerminal(loaded, total) => JustEnded(m, r, g, loaded, total)
          case AfterAbort(loaded, total) => JustEnded(m, r, g, loaded, total)
          case AfterLoadend => true)
  }

  predicate IsPump(pause: Pause) {
    pause.AfterLoadstart? || pause.AfterProgress? || pause.AfterFinal?
  }

  /** The operation a frame keeps busy. */
  function BusyOf(fr: Option<Frame>): Option<nat> {
    if fr.Some? && IsPump(fr.value.pause) then Some(fr.value.op) else None
  }

  /** Live, and in step with the suspended frame, if any. */
  ghost predicate Turn(m: Room, batch: seq<ChunkCompletion>, fr: Option<Frame>) {
    Live(m, batch, BusyOf(fr)) && (fr.Some? ==> FrameOk(m, fr.value))
  }

  /** A frame whose event has just fired, on a current generation. */
  ghost predicate JustFired(m: Room, fr: Frame) {
    Current(m.f, fr.reader, fr.generation) && !fr.pause.AfterAbort? && (IsPump(fr.pause) || fr.op == 0)
  }

  ghost predicate Suspended(m: Room, batch: seq<ChunkCompletion>, fr: Option<Frame>) {
    Turn(m, batch, fr) && (fr.Some? ==> JustFired(m, fr.value))
  }

  /** An operation that is gone keeps nobody busy. */
  lemma BusyGone(m: Room, batch: seq<ChunkCompletion>, op: nat)
    requires Live(m, batch, Some(op)) && op !in m.f.pending
    ensures Live(m, batch, None)
  {
    forall x ensures OpLocal(m, batch, None, x) {
      assert OpLocal(m, batch, Some(op), x);
      if x != op && x in m.f.pending {
        OpFrame(m, batch, Some(op), m, batch, None, x);
      }
    }
  }

  /** A replaced generation has no operation left. */
  lemma StaleFrame(m: Room, batch: seq<ChunkCompletion>, op: nat, r: nat, g: nat)
    requires Live(m, batch, Some(op)) && (op in m.f.pending ==> Owns(m.f, op, r, g)) && !Current(m.f, r, g)
    ensures Live(m, batch, None)
  {
    if op in m.f.pending {
      OwnsOnly(m, batch, Some(op), op, r, g);
    }
    BusyGone(m, batch, op);
  }

  // ---------------------------------------------------------- terminal settling

  function FailedNative(n: Native, problem: Problem): Native {
    n.(ready := Done, result := None, error := Some(problem), terminalDispatched := false)
  }

  lemma FailForm(m: Room, r: nat, op: nat, g: nat, total: nat, problem: Problem)
    requires Owns(m.f, op, r, g) && Current(m.f, r, g)
    ensures FailOperation(m, r, op, g, total, problem)
         == EndOp(m, r, op, FailedNative(m.f.natives[r], problem), m.f.nextGeneration,
                  [Dispatch(r, g, Error, 0, total)], [])
  {
    assert m.f.published + [] == m.f.published;
  }

  /** What the trace must be for an error to be allowed. */
  predicate MayFail(p: Phase, r: nat, total: nat) {
    p.Quiet? || ((p.Begun? || p.Complete?) && p.who == r && p.total == total)
  }

  lemma FailKeeps(m: Room, batch: seq<ChunkCompletion>, r: nat, op: nat, g: nat, total: nat, problem: Problem)
    requires Live(m, batch, Some(op)) && Owns(m.f, op, r, g) && MayFail(PhaseOf(m.f.log, g), r, total)
    ensures Live(FailOperation(m, r, op, g, total, problem), batch, None)
  {
    OwnsOnly(m, batch, Some(op), op, r, g);
    FailForm(m, r, op, g, total, problem);
    var n := FailedNative(m.f.natives[r], problem);
    EndOpKeeps(m, batch, Some(op), r, op, n, m.f.nextGeneration, [Dispatch(r, g, Error, 0, total)], []);
    BusyGone(FailOperation(m, r, op, g, total, problem), batch, op);
  }

  function PublishedNative(n: Native, s: PumpState): Native {
    n.(ready := Done, result := Some(Packaged(s.kind, s.buffered)), error := None,
       terminalDispatched := false, loaded := s.total)
  }

  lemma PublishForm(m: Room, r: nat, op: nat, g: nat, s: PumpState)
    requires Owns(m.f, op, r, g) && Current(m.f, r, g)
    ensures Publish(m, r, op, g, s, None)
         == EndOp(m, r, op, PublishedNative(m.f.natives[r], s), m.f.nextGeneration,
                  [Dispatch(r, g, Load, s.total, s.total)], [Publication(g, Packaged(s.kind, s.buffered), |m.f.log|)])
  {
  }

  lemma PublishKeeps(m: Room, batch: seq<ChunkCompletion>, r: nat, op: nat, g: nat, s: PumpState,
                     packError: Option<FileApiError>)
    requires Live(m, batch, Some(op)) && Owns(m.f, op, r, g) && FinalGood(m.f, r, g, s)
    ensures Live(Publish(m, r, op, g, s, packError), batch, None)
  {
    OwnsOnly(m, batch, Some(op), op, r, g);
    if s.kind.DataUrl? && packError.Some? {
      FailKeeps(m, batch, r, op, g, s.total, Core(packError.value));
    } else {
      PublishForm(m, r, op, g, s);
      assert m.f.log[..|m.f.log|] == m.f.log;
      EndOpKeeps(m, batch, Some(op), r, op, PublishedNative(m.f.natives[r], s), m.f.nextGeneration,
                 [Dispatch(r, g, Load, s.total, s.total)], [Publication(g, Packaged(s.kind, s.buffered), |m.f.log|)]);
      BusyGone(Publish(m, r, op, g, s, packError), batch, op);
    }
  }

  // --------------------------------------------------------------------- pump

  /** An event of the busy operation's generation. */
  lemma PumpFires(m: Room, batch: seq<ChunkCompletion>, op: nat, e: Event)
    requires Live(m, batch, Some(op)) && Owns(m.f, op, e.reader, e.generation)
    requires !Next(PhaseOf(m.f.log, e.generation), e).Broken?
    ensures Live(FireE(m, e), batch, Some(op))
    ensures PhaseOf(FireE(m, e).f.log, e.generation) == Next(PhaseOf(m.f.log, e.generation), e)
    ensures Fires(m.f, e.reader, e.generation)
  {
    OwnsOnly(m, batch, Some(op), op, e.reader, e.generation);
    FireKeeps(m, batch, Some(op), e, op);
    FiredViews(m, e, e.generation);
  }

  /** The end of a read: the final progress event fires and the frame waits. */
  lemma FinishKeeps(m: Room, batch: seq<ChunkCompletion>, r: nat, g: nat, op: nat, s: PumpState, now: int,
                    packError: Option<FileApiError>)
    requires Live(m, batch, Some(op)) && Owns(m.f, op, r, g) && PumpGood(m.f, r, g, s)
    requires s.loadstartSent && s.loaded >= s.total
    ensures var (m', fr) := FinishAtEof(m, r, g, op, s, now, packError);
      fr == Some(Frame(r, g, op, now, AfterFinal(s))) && Suspended(m', batch, fr)
  {
    var e := Event(r, g, Progress, s.total, s.total, now);
    OwnsOnly(m, batch, Some(op), op, r, g);
    assert s.buffered == m.f.asked[g];
    PumpFires(m, batch, op, e);
    assert FinalGood(FireE(m, e).f, r, g, s);
  }

  /** Not at the end: exactly one next request, or the error path. */
  lemma NextKeeps(m: Room, batch: seq<ChunkCompletion>, r: nat, g: nat, op: nat, s: PumpState,
                  submit: Option<SubmitError>)
    requires Live(m, batch, Some(op)) && Owns(m.f, op, r, g) && PumpGood(m.f, r, g, s)
    requires s.loadstartSent
    ensures Live(Stored(SubmitNext(m, r, g, op, s, submit), op, s), batch, None)
  {
    OwnsOnly(m, batch, Some(op), op, r, g);
    assert op in m.b.tokens by {
      assert At(m.b, op).token;
    }
    if submit.Some? {
      FailKeeps(m, batch, r, op, g, s.total, Core(SubmitFailure(submit.value)));
      var m1 := FailOperation(m, r, op, g, s.total, Core(SubmitFailure(submit.value)));
      FailForm(m, r, op, g, s.total, Core(SubmitFailure(submit.value)));
      StoredKeeps(m1, batch, None, op, s);
    } else {
      SubmittedKeeps(m, batch, op, r, g, s);
      assert Stored(SubmitNext(m, r, g, op, s, submit), op, s) == Submitted(m, op, g, s);
    }
  }

  lemma AfterChunkKeeps(m: Room, batch: seq<ChunkCompletion>, r: nat, g: nat, op: nat, s: PumpState, now: int,
                        submit: Option<SubmitError>, packError: Option<FileApiError>)
    requires Live(m, batch, Some(op)) && Owns(m.f, op, r, g) && PumpGood(m.f, r, g, s) && s.loadstartSent
    ensures var (m', fr) := AfterChunk(m, r, g, op, s, now, submit, packError);
      Suspended(m', batch, fr)
  {
    if s.loaded >= s.total {
      FinishKeeps(m, batch, r, g, op, s, now, packError);
    } else {
      NextKeeps(m, batch, r, g, op, s, submit);
    }
  }

  /** One more chunk: the buffer stays a prefix of the blob and the cursor moves on. */
  lemma FedGood(m: Room, batch: seq<ChunkCompletion>, r: nat, g: nat, op: nat, s: PumpState, bytes: seq<Byte>)
    requires Live(m, batch, Some(op)) && Owns(m.f, op, r, g) && PumpGood(m.f, r, g, s) && s.loadstartSent
    requires GoodChunk(m.f.asked[g], op, g, s, Chunk(bytes))
    ensures r < |m.f.natives|
    ensures var fed := Fed(s, bytes);
      var m1 := WithNative(m, r, m.f.natives[r].(loaded := fed.loaded));
      && Live(m1, batch, Some(op)) && Owns(m1.f, op, r, g) && PumpGood(m1.f, r, g, fed)
      && s.loaded < fed.loaded && |bytes| == fed.loaded - s.loaded
  {
    var fed := Fed(s, bytes);
    OwnsOnly(m, batch, Some(op), op, r, g);
    LoadedKeeps(m, batch, op, r, g, fed.loaded);
    assert fed.buffered == m.f.asked[g][..fed.loaded];
  }

  /** A progress event that is due, on the way. */
  lemma ProgressKeeps(m: Room, batch: seq<ChunkCompletion>, r: nat, g: nat, op: nat, s: PumpState, now: int)
    requires Live(m, batch, Some(op)) && Owns(m.f, op, r, g) && PumpGood(m.f, r, g, s) && s.loadstartSent
    requires Due(s.lastProgressAt, now) && s.loaded < s.total && PhaseOf(m.f.log, g).Begun?
    requires PhaseOf(m.f.log, g).last < s.loaded
    ensures Suspended(Fired(m, r, g, Progress, s.loaded, s.total, now), batch,
                 Some(Frame(r, g, op, now, AfterProgress(s.(lastProgressAt := now)))))
    ensures Fires(m.f, r, g)
  {
    var e := Event(r, g, Progress, s.loaded, s.total, now);
    OwnsOnly(m, batch, Some(op), op, r, g);
    PumpFires(m, batch, op, e);
    assert PumpGood(FireE(m, e).f, r, g, s.(lastProgressAt := now));
  }

  lemma ChunkKeeps(m: Room, batch: seq<ChunkCompletion>, r: nat, g: nat, op: nat, s: PumpState, bytes: seq<Byte>,
                   now: int, submit: Option<SubmitError>, packError: Option<FileApiError>)
    requires Live(m, batch, Some(op)) && Owns(m.f, op, r, g) && PumpGood(m.f, r, g, s) && s.loadstartSent
    requires GoodChunk(m.f.asked[g], op, g, s, Chunk(bytes)) && Current(m.f, r, g)
    ensures var (m', fr) := ApplyChunk(m, r, g, op, s, bytes, now, submit, packError);
      Suspended(m', batch, fr)
  {
    var fed := Fed(s, bytes);
    var m1 := WithNative(m, r, m.f.natives[r].(loaded := fed.loaded));
    FedGood(m, batch, r, g, op, s, bytes);
    if Due(fed.lastProgressAt, now) && fed.loaded < fed.total {
      ProgressKeeps(m1, batch, r, g, op, fed, now);
    } else {
      AfterChunkKeeps(m1, batch, r, g, op, fed, now, submit, packError);
    }
  }

  /** The first turn of a pump fires `loadstart` and holds the chunk back. */
  lemma LoadstartKeeps(m: Room, batch: seq<ChunkCompletion>, r: nat, g: nat, op: nat, s: PumpState, chunk: ChunkKind,
                       now: int)
    requires Live(m, batch, Some(op)) && Owns(m.f, op, r, g) && PumpGood(m.f, r, g, s) && !s.loadstartSent
    requires GoodChunk(m.f.asked[g], op, g, s, chunk)
    ensures var sent := s.(loadstartSent := true);
      && Suspended(Fired(Stored(m, op, sent), r, g, LoadStart, 0, s.total, now), batch,
              Some(Frame(r, g, op, now, AfterLoadstart(sent, chunk))))
      && Fires(Stored(m, op, sent).f, r, g)
  {
    hide Live;
    var sent := s.(loadstartSent := true);
    var m1 := Stored(m, op, sent);
    var e := Event(r, g, LoadStart, 0, s.total, now);
    OwnsOnly(m, batch, Some(op), op, r, g);
    StoredKeeps(m, batch, Some(op), op, sent);
    PumpFires(m1, batch, op, e);
    assert PumpGood(FireE(m1, e).f, r, g, sent);
  }

  /** A live pump job in hand. */
  ghost predicate PumpInHand(m: Room, r: nat, g: nat, op: nat, s: PumpState, chunk: ChunkKind) {
    && Owns(m.f, op, r, g) && Current(m.f, r, g)
    && PumpGood(m.f, r, g, s) && GoodChunk(m.f.asked[g], op, g, s, chunk)
  }

  lemma PumpKeeps(m: Room, batch: seq<ChunkCompletion>, r: nat, g: nat, op: nat, s: PumpState, chunk: ChunkKind,
                  now: int, submit: Option<SubmitError>, packError: Option<FileApiError>)
    requires Live(m, batch, Some(op)) && PumpInHand(m, r, g, op, s, chunk)
    ensures var (m', fr) := PumpEnter(m, r, g, op, s, chunk, now, submit, packError);
      Suspended(m', batch, fr)
  {
    if !s.loadstartSent {
      LoadstartKeeps(m, batch, r, g, op, s, chunk, now);
    } else {
      match chunk
      case Failed(error) => FailKeeps(m, batch, r, op, g, s.total, Core(error));
      case Eof => FinishKeeps(m, batch, r, g, op, s, now, packError);
      case Chunk(bytes) => ChunkKeeps(m, batch, r, g, op, s, bytes, now, submit, packError);
    }
  }

  // ----------------------------------------------------------------- dispatch

  /** A terminal event of an idle reader fires: its job was the only one. */
  lemma TerminalFires(m: Room, batch: seq<ChunkCompletion>, j: Job, now: int)
    requires Live(m, batch, None) && j.Dispatch? && IsTerminal(j.kind)
    requires Current(m.f, j.reader, j.generation) && 0 < j.generation
    requires m.f.natives[j.reader].ready.Done? && !m.f.natives[j.reader].terminalDispatched
    requires TermsOf(m, j.generation) == [] && EndsOf(m, j.generation) == []
    requires TermGood(m.f, j.reader, j.generation, j)
    ensures var m' := Fired(m, j.reader, j.generation, j.kind, j.loaded, j.total, now);
      Live(m', batch, None) && JustEnded(m', j.reader, j.generation, j.loaded, j.total)
  {
    var e := Event(j.reader, j.generation, j.kind, j.loaded, j.total, now);
    assert ReaderOk(m, j.reader);
    IdleOwnsNothing(m, batch, None, j.reader);
    FireKeeps(m, batch, None, e, 0);
    FiredViews(m, e, e.generation);
    SameJobs(m, FireE(m, e));
  }

  /** `loadend` of a generation whose terminal event is out. */
  lemma LoadendFires(m: Room, batch: seq<ChunkCompletion>, busy: Option<nat>, r: nat, g: nat, loaded: nat, total: nat,
                     now: int)
    requires Live(m, batch, busy) && Current(m.f, r, g) && 0 < g
    requires m.f.natives[r].ready.Done? && TermsOf(m, g) == [] && EndsOf(m, g) == []
    requires PhaseOf(m.f.log, g) == Ended(r, loaded, total)
    ensures Live(Fired(m, r, g, LoadEnd, loaded, total, now), batch, busy)
  {
    IdleOwnsNothing(m, batch, busy, r);
    FireKeeps(m, batch, busy, Event(r, g, LoadEnd, loaded, total, now), 0);
  }

  /** A current terminal job at the head of the queue is the only one, and may fire. */
  lemma HeadTerminal(m: Room, r: nat, g: nat)
    requires m.f.jobs != [] && Current(m.f, r, g) && ReaderOk(m, r)
    requires var j := m.f.jobs[0]; j.Dispatch? && IsTerminal(j.kind) && j.reader == r && j.generation == g && 0 < g
    ensures var n := m.f.natives[r];
      var m1 := JobPopped(m);
      && n.ready.Done? && !n.terminalDispatched && TermGood(m1.f, r, g, m.f.jobs[0])
      && TermsOf(m1, g) == [] && EndsOf(m1, g) == []
  {
    PoppedViews(m, 0, g);
    assert TermsOf(m, g)[0] == m.f.jobs[0];
    assert m.f.jobs[0] in TermsOf(m, g) && TermGood(m.f, r, g, m.f.jobs[0]);
  }

  lemma HeadLoadend(m: Room, r: nat, g: nat)
    requires m.f.jobs != [] && Current(m.f, r, g) && ReaderOk(m, r)
    requires var j := m.f.jobs[0]; j.Dispatch? && j.kind.LoadEnd? && j.reader == r && j.generation == g && 0 < g
    ensures var n := m.f.natives[r];
      var m1 := JobPopped(m);
      && n.ready.Done? && n.terminalDispatched && TermsOf(m1, g) == [] && EndsOf(m1, g) == []
      && PhaseOf(m1.f.log, g) == Ended(r, m.f.jobs[0].loaded, m.f.jobs[0].total)
  {
    PoppedViews(m, 0, g);
    assert EndsOf(m, g)[0] == m.f.jobs[0];
    assert m.f.jobs[0] in EndsOf(m, g);
  }

  lemma DispatchTerminal(m: Room, batch: seq<ChunkCompletion>, now: int)
    requires m.f.jobs != [] && Live(m, batch, None) && Live(JobPopped(m), batch, None) && 0 !in m.f.pending
    requires m.f.jobs[0].Dispatch? && IsTerminal(m.f.jobs[0].kind) && 0 < m.f.jobs[0].generation
    requires Current(m.f, m.f.jobs[0].reader, m.f.jobs[0].generation) && ReaderOk(m, m.f.jobs[0].reader)
    ensures var j := m.f.jobs[0];
      var (m', fr) := DispatchEnter(JobPopped(m), j.reader, j.generation, j.kind, j.loaded, j.total, now);
      Suspended(m', batch, fr)
  {
    hide Live, ReaderOk, TermGood, PhaseOf;
    var j := m.f.jobs[0];
    HeadTerminal(m, j.reader, j.generation);
    TerminalFires(JobPopped(m), batch, j, now);
  }

  lemma DispatchLoadend(m: Room, batch: seq<ChunkCompletion>, now: int)
    requires m.f.jobs != [] && Live(m, batch, None) && Live(JobPopped(m), batch, None) && 0 !in m.f.pending
    requires m.f.jobs[0].Dispatch? && m.f.jobs[0].kind.LoadEnd? && 0 < m.f.jobs[0].generation
    requires Current(m.f, m.f.jobs[0].reader, m.f.jobs[0].generation) && ReaderOk(m, m.f.jobs[0].reader)
    ensures var j := m.f.jobs[0];
      var (m', fr) := DispatchEnter(JobPopped(m), j.reader, j.generation, j.kind, j.loaded, j.total, now);
      Suspended(m', batch, fr)
  {
    hide Live, ReaderOk, PhaseOf;
    var j := m.f.jobs[0];
    HeadLoadend(m, j.reader, j.generation);
    LoadendFires(JobPopped(m), batch, None, j.reader, j.generation, j.loaded, j.total, now);
  }

  /** A reader that never read has no generation to dispatch for. */
  lemma DispatchNothing(m: Room, batch: seq<ChunkCompletion>, r: nat, g: nat, kind: EventKind, loaded: nat, total: nat,
                        now: int)
    requires Live(m, batch, None)
    requires Current(m.f, r, g) ==> ReaderOk(m, r) && (g == 0 || !(IsTerminal(kind) || kind.LoadEnd?))
    ensures DispatchEnter(m, r, g, kind, loaded, total, now) == (m, None) && Suspended(m, batch, None)
  {
    hide Live;
  }

  lemma DispatchKeeps(m: Room, batch: seq<ChunkCompletion>, now: int)
    requires Live(m, batch, None) && m.f.jobs != [] && m.f.jobs[0].Dispatch?
    ensures var j := m.f.jobs[0];
      var (m', fr) := DispatchEnter(JobPopped(m), j.reader, j.generation, j.kind, j.loaded, j.total, now);
      Suspended(m', batch, fr)
  {
    hide Live, ReaderOk, Suspended, DispatchEnter;
    var j := m.f.jobs[0];
    var m1 := JobPopped(m);
    PopKeeps(m, batch);
    IdleZero(m, batch);
    if Current(m.f, j.reader, j.generation) {
      LiveReader(m, batch, None, j.reader);
      LiveReader(m1, batch, None, j.reader);
    }
    if Current(m.f, j.reader, j.generation) && 0 < j.generation && (IsTerminal(j.kind) || j.kind.LoadEnd?) {
      if IsTerminal(j.kind) {
        DispatchTerminal(m, batch, now);
      } else {
        DispatchLoadend(m, batch, now);
      }
    } else {
      DispatchNothing(m1, batch, j.reader, j.generation, j.kind, j.loaded, j.total, now);
    }
  }

  lemma IdleZero(m: Room, batch: seq<ChunkCompletion>)
    requires Live(m, batch, None)
    ensures 0 !in m.f.pending
  {
    assert OpLocal(m, batch, None, 0);
  }
}
