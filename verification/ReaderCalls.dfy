/**
  Jobs, resumptions and public calls of the FileReader machine as the job
  queue and scripts perform them.
*/
module ReaderCalls {
  import opened Common
  import opened Bridge
  import opened Readers
  import opened ReaderLaws
  import opened ReaderMoves
  import opened ReaderEnds
  import opened ReaderTurns
  import opened ReaderSteps

  // --------------------------------------------------------------------- jobs

  /** A pump job at the head of the queue is either live and in hand, or a no-op. */
  lemma HeadPump(m: Room, batch: seq<ChunkCompletion>)
    requires Live(m, batch, None) && m.f.jobs != [] && m.f.jobs[0].Pump?
    ensures var j := m.f.jobs[0];
      if j.op in m.f.pending then PumpInHand(JobPopped(m), j.reader, j.generation, j.op, j.state, j.chunk)
      else !Current(m.f, j.reader, j.generation)
  {
    var j := m.f.jobs[0];
    PoppedViews(m, j.op, 0);
    assert OpLocal(m, batch, None, j.op);
    assert PumpsOf(m, j.op)[0] == j;
    if j.op in m.f.pending {
      var PendingOp(r, g) := m.f.pending[j.op];
      OwnsOnly(m, batch, None, j.op, r, g);
      assert j in PumpsOf(m, j.op);
      PumpSameParts(m.f, JobPopped(m).f, r, g, j.state);
    }
  }

  /**
    One job, up to its event: the invariant holds again with the event's frame
    suspended, and a job of a replaced generation does nothing at all.
  */
  lemma JobKeeps(m: Room, batch: seq<ChunkCompletion>, now: int, submit: Option<SubmitError>,
                 packError: Option<FileApiError>)
    requires Live(m, batch, None) && m.f.jobs != []
    ensures var (m', fr) := JobEnter(JobPopped(m), m.f.jobs[0], now, submit, packError);
      Suspended(m', batch, fr)
  {
    var j := m.f.jobs[0];
    PopKeeps(m, batch);
    match j
    case Pump(r, g, op, state, chunk) =>
      HeadPump(m, batch);
      if op in m.f.pending {
        PumpKeeps(JobPopped(m), batch, r, g, op, state, chunk, now, submit, packError);
      }
    case Dispatch(r, g, kind, loaded, total) =>
      DispatchKeeps(m, batch, now);
  }

  // -------------------------------------------------------------- resumptions

  lemma ResumeTerminalKeeps(m: Room, batch: seq<ChunkCompletion>, r: nat, g: nat, loaded: nat, total: nat)
    requires Live(m, batch, None) && (Current(m.f, r, g) ==> JustEnded(m, r, g, loaded, total))
    ensures Live(ResumeTerminal(m, r, g, loaded, total), batch, None)
  {
    if Current(m.f, r, g) {
      var n := m.f.natives[r].(terminalDispatched := true);
      var m1 := WithNative(m, r, n);
      NativeKeeps(m, batch, None, r, n);
      SameJobs(m, m1);
      EnqueueEndKeeps(m1, batch, None, r, g, loaded, total);
    }
  }

  lemma ResumePumpKeeps(m: Room, batch: seq<ChunkCompletion>, fr: Frame, submit: Option<SubmitError>,
                        packError: Option<FileApiError>)
    requires Turn(m, batch, Some(fr)) && IsPump(fr.pause) && Current(m.f, fr.reader, fr.generation)
    ensures var (m', fr') := Resume(m, fr, submit, packError);
      fr'.None? && Live(m', batch, None)
  {
    var Frame(r, g, op, now, pause) := fr;
    match pause
    case AfterLoadstart(s, chunk) =>
      assert op in m.f.pumps ==> s.(lastProgressAt := m.f.pumps[op].lastProgressAt,
                                    finalProgressSent := m.f.pumps[op].finalProgressSent) == s;
      EnqueuedPumpKeeps(m, batch, op, r, g, s, chunk);
    case AfterProgress(s) => AfterChunkKeeps(m, batch, r, g, op, s, now, submit, packError);
    case AfterFinal(s) => PublishKeeps(m, batch, r, op, g, s, packError);
  }

  /**
    Handlers have returned: the frame goes on if its generation is still the
    reader's, and is a strict no-op otherwise.
  */
  lemma ResumeKeeps(m: Room, batch: seq<ChunkCompletion>, fr: Frame, submit: Option<SubmitError>,
                    packError: Option<FileApiError>)
    requires Turn(m, batch, Some(fr)) && !fr.pause.AfterAbort?
    ensures var (m', fr') := Resume(m, fr, submit, packError);
      && fr'.None? && Live(m', batch, None)
      && (!Current(m.f, fr.reader, fr.generation) ==> m' == m)
  {
    var Frame(r, g, op, now, pause) := fr;
    if IsPump(pause) {
      if Current(m.f, r, g) {
        ResumePumpKeeps(m, batch, fr, submit, packError);
      } else {
        StaleFrame(m, batch, op, r, g);
      }
    } else if pause.AfterTerminal? {
      ResumeTerminalKeeps(m, batch, r, g, pause.loaded, pause.total);
    }
  }

  // -------------------------------------------------------------------- abort

  function AbortedNative(n: Native, g: nat): Native {
    Native(Done, None, None, g, false, n.total, n.loaded)
  }

  lemma AbortForm(m: Room, r: nat, now: int)
    requires r < |m.f.natives| && m.f.natives[r].ready.Loading? && HasOp(m.f.pending, r) && !m.b.shutdown
    ensures var n := m.f.natives[r];
      var g := m.f.nextGeneration;
      AbortCall(m, r, now)
      == (Fired(EndOp(m, r, OpOf(m.f.pending, r), AbortedNative(n, g), g + 1, [], []), r, g, Abort, n.loaded, n.total, now),
          Some(Frame(r, g, 0, now, AfterAbort(n.loaded, n.total))))
  {
    assert m.f.jobs + [] == m.f.jobs && m.f.published + [] == m.f.published;
  }

  /** The first half of a loading reader's abort: everything the operation held is gone. */
  lemma AbortEnds(m: Room, batch: seq<ChunkCompletion>, busy: Option<nat>, r: nat, op: nat, n: Native, g: nat)
    requires Live(m, batch, busy) && r < |m.f.natives| && op in m.f.pending && m.f.pending[op].reader == r
    requires g == m.f.nextGeneration && n.ready.Done? && !n.terminalDispatched && n.generation == g
    requires m.f.natives[r].generation != g
    ensures Live(EndOp(m, r, op, n, g + 1, [], []), batch, busy)
  {
    EndOpKeeps(m, batch, busy, r, op, n, g + 1, [], []);
  }

  lemma AbortViews(m: Room, r: nat, op: nat)
    requires r < |m.f.natives| && GenLocal(m, m.f.nextGeneration)
    ensures var n, g := m.f.natives[r], m.f.nextGeneration;
      var m1 := EndOp(m, r, op, AbortedNative(n, g), g + 1, [], []);
      TermsOf(m1, g) == [] && EndsOf(m1, g) == [] && PhaseOf(m1.f.log, g) == Quiet
  {
    var n, g := m.f.natives[r], m.f.nextGeneration;
    AppendedViews(m, EndOp(m, r, op, AbortedNative(n, g), g + 1, [], []), [], 0, g);
  }

  lemma AbortFires(m: Room, batch: seq<ChunkCompletion>, busy: Option<nat>, r: nat, g: nat, loaded: nat, total: nat,
                   now: int)
    requires Live(m, batch, busy) && Current(m.f, r, g) && 0 < g && m.f.natives[r].ready.Done?
    requires !m.f.natives[r].terminalDispatched
    requires TermsOf(m, g) == [] && EndsOf(m, g) == [] && PhaseOf(m.f.log, g) == Quiet
    ensures var m' := Fired(m, r, g, Abort, loaded, total, now);
      Live(m', batch, busy) && FrameOk(m', Frame(r, g, 0, now, AfterAbort(loaded, total)))
  {
    var e := Event(r, g, Abort, loaded, total, now);
    IdleOwnsNothing(m, batch, busy, r);
    FireKeeps(m, batch, busy, e, 0);
    FiredViews(m, e, g);
    SameJobs(m, FireE(m, e));
  }

  /** A loading reader's abort: its operation ends and `abort` is the first event of a new generation. */
  lemma AbortLoading(m: Room, batch: seq<ChunkCompletion>, busy: Option<nat>, r: nat, now: int)
    requires Live(m, batch, busy) && r < |m.f.natives| && m.f.natives[r].ready.Loading?
    ensures var (m', fr) := AbortCall(m, r, now);
      Live(m', batch, busy) && fr.Some? && FrameOk(m', fr.value) && fr.value.generation == m.f.nextGeneration
  {
    assert ReaderOk(m, r);
    var n, g, op := m.f.natives[r], m.f.nextGeneration, OpOf(m.f.pending, r);
    AbortForm(m, r, now);
    FreshGeneration(m, batch, busy, r);
    AbortEnds(m, batch, busy, r, op, AbortedNative(n, g), g);
    AbortViews(m, r, op);
    var m1 := EndOp(m, r, op, AbortedNative(n, g), g + 1, [], []);
    AbortFires(m1, batch, busy, r, g, n.loaded, n.total, now);
  }

  /** `abort()` in any state of any reader. */
  lemma AbortKeeps(m: Room, batch: seq<ChunkCompletion>, busy: Option<nat>, r: nat, now: int)
    requires Live(m, batch, busy) && r < |m.f.natives|
    ensures var (m', fr) := AbortCall(m, r, now);
      && Live(m', batch, busy)
      && (fr.Some? <==> m.f.natives[r].ready.Loading?)
      && (fr.Some? ==> FrameOk(m', fr.value) && fr.value.generation == m.f.nextGeneration)
  {
    if m.f.natives[r].ready.Loading? {
      AbortLoading(m, batch, busy, r, now);
    } else {
      NativeKeeps(m, batch, busy, r, m.f.natives[r].(result := None));
    }
  }

  lemma ResumeAbortKeeps(m: Room, batch: seq<ChunkCompletion>, busy: Option<nat>, r: nat, g: nat, now: int,
                         loaded: nat, total: nat)
    requires Live(m, batch, busy) && (Current(m.f, r, g) ==> JustEnded(m, r, g, loaded, total))
    ensures Live(ResumeAbort(m, r, g, now, loaded, total).0, batch, busy)
  {
    if Current(m.f, r, g) {
      var n := m.f.natives[r].(terminalDispatched := true);
      var m1 := WithNative(m, r, n);
      NativeKeeps(m, batch, busy, r, n);
      SameJobs(m, m1);
      LoadendFires(m1, batch, busy, r, g, loaded, total, now);
    }
  }

  // ----------------------------------------------------------- start of reads

  lemma FailFastKeeps(m: Room, batch: seq<ChunkCompletion>, busy: Option<nat>, r: nat, total: nat, problem: Problem)
    requires Live(m, batch, busy) && r < |m.f.natives| && !m.f.natives[r].ready.Loading?
    ensures Live(FailFast(m, r, total, problem), batch, busy)
    ensures FailFast(m, r, total, problem) == Restarted(m, r, total, problem)
  {
    RestartKeeps(m, batch, busy, r, total, problem);
  }

  /** The bridge after a reservation that is given back at once. */
  lemma GivenBack(b: BridgeState)
    requires Valid(b) && Reserve(b).1.Ok?
    ensures var b' := Unreserve(Reserve(b).0, b.next).0;
      && Valid(b') && b'.shutdown == b.shutdown && b'.next == b.next + 1 && b'.tokens == b.tokens
      && forall x :: At(b', x) == At(b, x)
  {
    ReserveKeeps(b);
    UnreserveKeeps(Reserve(b).0, b.next);
    assert At(b, b.next) == NO_VIEW;
  }

  lemma RefusedForm(m: Room, b1: BridgeState, r: nat, op: nat, blob: seq<Byte>, error: SubmitError)
    requires r < |m.f.natives| && op !in m.f.pending && op !in m.f.payloads
    ensures var g := m.f.nextGeneration;
      var m1 := Room(b1, m.f.(nextGeneration := g + 1, active := m.f.active + 1));
      var base := Room(Unreserve(b1, op).0, m.f.(pumps := m.f.pumps - {op}));
      RefusedStart(m1, r, op, g, blob, error) == Restarted(base, r, |blob|, Core(SubmitFailure(error)))
  {
    assert m.f.pending - {op} == m.f.pending;
    assert m.f.payloads - {op} == m.f.payloads;
  }

  lemma ForgottenPump(m: Room, batch: seq<ChunkCompletion>, busy: Option<nat>, op: nat)
    requires Live(m, batch, busy) && op !in m.f.pending
    ensures Live(m.(f := m.f.(pumps := m.f.pumps - {op})), batch, busy)
  {
    var m' := m.(f := m.f.(pumps := m.f.pumps - {op}));
    SameJobs(m, m');
    forall x ensures OpLocal(m', batch, busy, x) {
      assert OpLocal(m, batch, busy, x);
      OpFrame(m, batch, busy, m', batch, busy, x);
    }
    forall q | 0 <= q < |m'.f.natives| ensures ReaderOk(m', q) {
      assert ReaderOk(m, q);
      ReaderFrame(m, m', q);
    }
    forall g ensures GenLocal(m', g) {
      assert GenLocal(m, g);
    }
  }

  lemma RefusedKeeps(m: Room, batch: seq<ChunkCompletion>, busy: Option<nat>, r: nat, blob: seq<Byte>, error: SubmitError)
    requires Live(m, batch, busy) && r < |m.f.natives| && !m.f.natives[r].ready.Loading? && Reserve(m.b).1.Ok?
    ensures var g := m.f.nextGeneration;
      var m1 := Room(Reserve(m.b).0, m.f.(nextGeneration := g + 1, active := m.f.active + 1));
      var m' := RefusedStart(m1, r, m.b.next, g, blob, error);
      && Live(m', batch, busy) && m'.f.pending == m.f.pending && m'.b.tokens == m.b.tokens
  {
    var op := m.b.next;
    assert op !in m.f.pending by {
      assert OpLocal(m, batch, busy, op);
    }
    ReserveOutcome(m.b);
    GivenBack(m.b);
    ForgottenPump(m, batch, busy, op);
    var base := Room(Unreserve(Reserve(m.b).0, op).0, m.f.(pumps := m.f.pumps - {op}));
    OtherClientMoved(m.(f := base.f), base.b, batch, busy);
    RefusedForm(m, Reserve(m.b).0, r, op, blob, error);
    RestartKeeps(base, batch, busy, r, |blob|, Core(SubmitFailure(error)));
  }

  lemma GenerationSkipped(m: Room, batch: seq<ChunkCompletion>, busy: Option<nat>)
    requires Live(m, batch, busy)
    ensures Live(m.(f := m.f.(nextGeneration := m.f.nextGeneration + 1)), batch, busy)
  {
    var m' := m.(f := m.f.(nextGeneration := m.f.nextGeneration + 1));
    SameJobs(m, m');
    forall x ensures OpLocal(m', batch, busy, x) {
      assert OpLocal(m, batch, busy, x);
      OpFrame(m, batch, busy, m', batch, busy, x);
    }
    forall q | 0 <= q < |m'.f.natives| ensures ReaderOk(m', q) {
      assert ReaderOk(m, q);
      ReaderFrame(m, m', q);
    }
    forall g ensures GenLocal(m', g) {
      assert GenLocal(m, g);
    }
  }

  /** A slot given back because the chunk size is out of range: only numbers were used up. */
  lemma BadChunkKeeps(m: Room, batch: seq<ChunkCompletion>, busy: Option<nat>, b': BridgeState)
    requires Live(m, batch, busy) && Valid(b') && !b'.shutdown && m.b.next <= b'.next && b'.tokens == m.b.tokens
    requires forall x :: At(b', x) == At(m.b, x)
    ensures Live(Room(b', m.f.(nextGeneration := m.f.nextGeneration + 1)), batch, busy)
  {
    OtherClientMoved(m, b', batch, busy);
    GenerationSkipped(m.(b := b'), batch, busy);
  }

  /** A read was granted a slot. */
  predicate Granting(m: Room) {
    m.f.active < m.b.limit && Reserve(m.b).1.Ok?
  }

  /** The entries and slots after a read began, or did not. */
  ghost predicate HeldAs(m: Room, m': Room, began: bool) {
    && m'.f.pending.Keys == (if began then m.f.pending.Keys + {m.b.next} else m.f.pending.Keys)
    && m'.b.tokens == (if began then m.b.tokens + {m.b.next} else m.b.tokens)
  }

  /** A loading reader after a read began; or an idle one with an error queued. */
  ghost predicate StartedAs(m: Room, m': Room, r: nat, began: bool) {
    && r < |m'.f.natives| && (m'.f.natives[r].ready.Loading? <==> began)
    && HeldAs(m, m', began)
    && (began ==> m'.f.pending == m.f.pending[m.b.next := PendingOp(r, m.f.nextGeneration)])
  }

  /** No slot: an error is queued under a new generation, and that is all. */
  lemma NoSlotKeeps(m: Room, batch: seq<ChunkCompletion>, busy: Option<nat>, r: nat, total: nat, b': BridgeState)
    requires Live(m, batch, busy) && r < |m.f.natives| && !m.f.natives[r].ready.Loading?
    requires Valid(b') && !b'.shutdown && m.b.next <= b'.next && b'.tokens == m.b.tokens
    requires forall x :: At(b', x) == At(m.b, x)
    ensures var m' := FailFast(m.(b := b'), r, total, Quota);
      Live(m', batch, busy) && StartedAs(m, m', r, false)
  {
    OtherClientMoved(m, b', batch, busy);
    FailFastKeeps(m.(b := b'), batch, busy, r, total, Quota);
  }

  lemma StartRefusals(m: Room, batch: seq<ChunkCompletion>, busy: Option<nat>, r: nat, blob: seq<Byte>, kind: Kind,
                      submit: Option<SubmitError>)
    requires Live(m, batch, busy) && r < |m.f.natives| && !m.f.natives[r].ready.Loading? && !Granting(m)
    ensures var (m', result) := StartRead(m, r, blob, kind, submit);
      Live(m', batch, busy) && result.Accepted? && StartedAs(m, m', r, false)
  {
    if m.f.active >= m.b.limit {
      NoSlotKeeps(m, batch, busy, r, |blob|, m.b);
    } else {
      ReserveKeeps(m.b);
      NoSlotKeeps(m, batch, busy, r, |blob|, Reserve(m.b).0);
    }
  }

  lemma StartedShape(m: Room, r: nat, blob: seq<Byte>, kind: Kind, b1: BridgeState)
    requires r < |m.f.natives| && b1.tokens == m.b.tokens + {m.b.next}
    ensures var g := m.f.nextGeneration;
      var m1 := Room(b1, m.f.(nextGeneration := g + 1, active := m.f.active + 1));
      StartedAs(m, Started(m1, r, m.b.next, g, blob, kind), r, true)
  {
    assert m.f.pending[m.b.next := PendingOp(r, m.f.nextGeneration)].Keys == m.f.pending.Keys + {m.b.next};
  }

  lemma BegunForm(m: Room, r: nat, op: nat, blob: seq<Byte>, kind: Kind)
    requires r < |m.f.natives| && ChunkInRange(m.f.chunkSize)
    ensures var g := m.f.nextGeneration;
      var m1 := m.(f := m.f.(nextGeneration := g + 1, active := m.f.active + 1));
      Begin(m, r, op, blob, kind, None) == (Started(m1, r, op, g, blob, kind), Accepted)
  {
  }

  lemma BegunKeeps(m: Room, batch: seq<ChunkCompletion>, busy: Option<nat>, r: nat, blob: seq<Byte>, kind: Kind,
                   b1: BridgeState)
    requires Live(m, batch, busy) && r < |m.f.natives| && (busy.Some? ==> busy.value < m.b.next)
    requires !m.f.natives[r].ready.Loading? && ChunkInRange(m.f.chunkSize)
    requires Valid(b1) && !b1.shutdown && m.b.next < b1.next && b1.tokens == m.b.tokens + {m.b.next}
    requires At(b1, m.b.next) == FRESH_VIEW && forall x :: x != m.b.next ==> At(b1, x) == At(m.b, x)
    ensures var (m', result) := Begin(m.(b := b1), r, m.b.next, blob, kind, None);
      Live(m', batch, busy) && result.Accepted? && StartedAs(m, m', r, true)
  {
    hide Live, StartedAs, Begin, Started;
    StartedKeeps(m, batch, busy, b1, r, blob, kind);
    StartedShape(m, r, blob, kind, b1);
    BegunForm(m.(b := b1), r, m.b.next, blob, kind);
  }

  lemma StartGranted(m: Room, batch: seq<ChunkCompletion>, busy: Option<nat>, r: nat, blob: seq<Byte>, kind: Kind,
                     submit: Option<SubmitError>)
    requires Live(m, batch, busy) && r < |m.f.natives| && (busy.Some? ==> busy.value < m.b.next)
    requires !m.f.natives[r].ready.Loading? && Granting(m) && ChunkInRange(m.f.chunkSize)
    ensures var (m', result) := StartRead(m, r, blob, kind, submit);
      Live(m', batch, busy) && result.Accepted? && StartedAs(m, m', r, submit.None?)
  {
    ReserveKeeps(m.b);
    if submit.Some? {
      RefusedKeeps(m, batch, busy, r, blob, submit.value);
    } else {
      BegunKeeps(m, batch, busy, r, blob, kind, Reserve(m.b).0);
    }
  }

  lemma StartBadChunk(m: Room, batch: seq<ChunkCompletion>, busy: Option<nat>, r: nat, blob: seq<Byte>, kind: Kind,
                      submit: Option<SubmitError>)
    requires Live(m, batch, busy) && r < |m.f.natives|
    requires !m.f.natives[r].ready.Loading? && Granting(m) && !ChunkInRange(m.f.chunkSize)
    ensures var (m', result) := StartRead(m, r, blob, kind, submit);
      Live(m', batch, busy) && result.BadChunkSize? && HeldAs(m, m', false)
  {
    ReserveKeeps(m.b);
    GivenBack(m.b);
    BadChunkKeeps(m, batch, busy, Unreserve(Reserve(m.b).0, m.b.next).0);
  }

  /**
    `readAs*`: a loading reader refuses and nothing changes; otherwise the
    reader is loading afterwards exactly when it got a slot, a legal chunk size
    and a task, and then holds exactly one new operation.
  */
  lemma StartReadKeeps(m: Room, batch: seq<ChunkCompletion>, busy: Option<nat>, r: nat, blob: seq<Byte>, kind: Kind,
                       submit: Option<SubmitError>)
    requires Live(m, batch, busy) && r < |m.f.natives| && (busy.Some? ==> busy.value < m.b.next)
    ensures var (m', result) := StartRead(m, r, blob, kind, submit);
      var idle := !m.f.natives[r].ready.Loading?;
      && Live(m', batch, busy)
      && (result.InvalidState? <==> !idle) && (!idle ==> m' == m)
      && (result.BadChunkSize? <==> idle && Granting(m) && !ChunkInRange(m.f.chunkSize))
      && (result.Accepted? ==> StartedAs(m, m', r, Granting(m) && submit.None?))
      && HeldAs(m, m', result.Accepted? && Granting(m) && submit.None?)
  {
    if m.f.natives[r].ready.Loading? {
    } else if !Granting(m) {
      StartRefusals(m, batch, busy, r, blob, kind, submit);
    } else if !ChunkInRange(m.f.chunkSize) {
      StartBadChunk(m, batch, busy, r, blob, kind, submit);
    } else {
      StartGranted(m, batch, busy, r, blob, kind, submit);
    }
  }

  lemma StartDataUrlKeeps(m: Room, batch: seq<ChunkCompletion>, busy: Option<nat>, r: nat, blob: seq<Byte>, fits: bool,
                          submit: Option<SubmitError>)
    requires Live(m, batch, busy) && r < |m.f.natives| && (busy.Some? ==> busy.value < m.b.next)
    ensures var m' := StartDataUrl(m, r, blob, fits, submit).0;
      Live(m', batch, busy) && (HeldAs(m, m', true) || HeldAs(m, m', false))
  {
    if m.f.natives[r].ready.Loading? {
    } else if m.f.active >= m.b.limit {
      FailFastKeeps(m, batch, busy, r, |blob|, Quota);
    } else if !fits {
      FailFastKeeps(m, batch, busy, r, |blob|, TooLong);
    } else {
      StartReadKeeps(m, batch, busy, r, blob, DataUrl, submit);
    }
  }
}
