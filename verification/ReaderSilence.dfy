/** Who may fire: only the generation a job or frame belongs to, and only while it is current. */
module ReaderSilence {
  import opened Common
  import opened Bridge
  import opened Readers
  import opened ReaderLaws

  /** At most one event was added, of generation `g` on reader `r`. */
  ghost predicate OneEvent(f: ReaderState, f': ReaderState, r: nat, g: nat) {
    || f'.log == f.log
    || exists e: Event :: e.reader == r && e.generation == g && f'.log == f.log + [e]
  }

  lemma FiredOnce(m: Room, r: nat, g: nat, kind: EventKind, loaded: nat, total: nat, at: int)
    ensures OneEvent(m.f, Fired(m, r, g, kind, loaded, total, at).f, r, g)
  {
    var e := Event(r, g, kind, loaded, total, at);
    assert e.reader == r && Fired(m, r, g, kind, loaded, total, at).f.log == m.f.log + [e];
  }

  /** Other generations hear nothing. */
  lemma OthersSilent(f: ReaderState, f': ReaderState, r: nat, g: nat, h: nat)
    requires OneEvent(f, f', r, g) && h != g
    ensures EventsOf(f'.log, h) == EventsOf(f.log, h)
  {
    if f'.log != f.log {
      var e: Event :| e.reader == r && e.generation == g && f'.log == f.log + [e];
      PickedAppend(f.log, e, EventGen, h);
    }
  }

  /** No reader changes its generation. */
  ghost predicate Steady(f: ReaderState, f': ReaderState) {
    && f'.nextGeneration == f.nextGeneration && |f'.natives| == |f.natives|
    && forall q :: 0 <= q < |f.natives| ==> f'.natives[q].generation == f.natives[q].generation
  }

  lemma FailIsSilent(m: Room, r: nat, op: nat, g: nat, total: nat, problem: Problem)
    ensures var f' := FailOperation(m, r, op, g, total, problem).f; f'.log == m.f.log && Steady(m.f, f')
  {
  }

  lemma PublishIsSilent(m: Room, r: nat, op: nat, g: nat, state: PumpState, packError: Option<FileApiError>)
    ensures var f' := Publish(m, r, op, g, state, packError).f; f'.log == m.f.log && Steady(m.f, f')
  {
  }

  lemma FinishFires(m: Room, r: nat, g: nat, op: nat, state: PumpState, now: int, packError: Option<FileApiError>)
    ensures var f' := FinishAtEof(m, r, g, op, state, now, packError).0.f; OneEvent(m.f, f', r, g) && Steady(m.f, f')
  {
    FiredOnce(m, r, g, Progress, state.total, state.total, now);
    PublishIsSilent(m, r, op, g, state, packError);
  }

  lemma AfterChunkFires(m: Room, r: nat, g: nat, op: nat, state: PumpState, now: int, submit: Option<SubmitError>,
                        packError: Option<FileApiError>)
    ensures var f' := AfterChunk(m, r, g, op, state, now, submit, packError).0.f; OneEvent(m.f, f', r, g) && Steady(m.f, f')
  {
    FinishFires(m, r, g, op, state, now, packError);
    if submit.Some? {
      FailIsSilent(m, r, op, g, state.total, Core(SubmitFailure(submit.value)));
    }
  }

  lemma ChunkFires(m: Room, r: nat, g: nat, op: nat, state: PumpState, bytes: seq<Byte>, now: int,
                   submit: Option<SubmitError>, packError: Option<FileApiError>)
    requires Current(m.f, r, g)
    ensures var f' := ApplyChunk(m, r, g, op, state, bytes, now, submit, packError).0.f; OneEvent(m.f, f', r, g) && Steady(m.f, f')
  {
    var fed := Fed(state, bytes);
    var m1 := WithNative(m, r, m.f.natives[r].(loaded := fed.loaded));
    FiredOnce(m1, r, g, Progress, fed.loaded, fed.total, now);
    AfterChunkFires(m1, r, g, op, fed.(lastProgressAt := now), now, submit, packError);
    AfterChunkFires(m1, r, g, op, fed, now, submit, packError);
  }

  lemma PumpFires(m: Room, r: nat, g: nat, op: nat, state: PumpState, chunk: ChunkKind, now: int,
                  submit: Option<SubmitError>, packError: Option<FileApiError>)
    ensures var m' := PumpEnter(m, r, g, op, state, chunk, now, submit, packError).0;
      OneEvent(m.f, m'.f, r, g) && Steady(m.f, m'.f) && (!Current(m.f, r, g) ==> m' == m)
  {
    if Current(m.f, r, g) && !m.b.shutdown {
      if !state.loadstartSent {
        FiredOnce(Stored(m, op, state.(loadstartSent := true)), r, g, LoadStart, 0, state.total, now);
      } else {
        match chunk
        case Failed(error) => FailIsSilent(m, r, op, g, state.total, Core(error));
        case Eof => FinishFires(m, r, g, op, state, now, packError);
        case Chunk(bytes) => ChunkFires(m, r, g, op, state, bytes, now, submit, packError);
      }
    }
  }

  /** A job fires for its own generation if that is current, and does nothing at all otherwise. */
  lemma JobFires(m: Room, j: Job, now: int, submit: Option<SubmitError>, packError: Option<FileApiError>)
    ensures var m' := JobEnter(m, j, now, submit, packError).0;
      && OneEvent(m.f, m'.f, j.reader, j.generation) && Steady(m.f, m'.f)
      && (!Current(m.f, j.reader, j.generation) ==> m' == m)
  {
    match j
    case Pump(r, g, op, state, chunk) => PumpFires(m, r, g, op, state, chunk, now, submit, packError);
    case Dispatch(r, g, kind, loaded, total) =>
      FiredOnce(m, r, g, kind, loaded, total, now);
      FiredOnce(m, r, g, LoadEnd, loaded, total, now);
  }

  /** A resumed job fires for its own generation if that is still current, and does nothing otherwise. */
  lemma ResumeFires(m: Room, fr: Frame, submit: Option<SubmitError>, packError: Option<FileApiError>)
    ensures var m' := Resume(m, fr, submit, packError).0;
      && OneEvent(m.f, m'.f, fr.reader, fr.generation) && Steady(m.f, m'.f)
      && (!Current(m.f, fr.reader, fr.generation) ==> m' == m)
  {
    var Frame(r, g, op, now, pause) := fr;
    match pause
    case AfterLoadstart(state, chunk) =>
    case AfterProgress(state) => AfterChunkFires(m, r, g, op, state, now, submit, packError);
    case AfterFinal(state) => PublishIsSilent(m, r, op, g, state, packError);
    case AfterTerminal(loaded, total) =>
    case AfterAbort(loaded, total) =>
      if Current(m.f, r, g) {
        FiredOnce(WithNative(m, r, m.f.natives[r].(terminalDispatched := true)), r, g, LoadEnd, loaded, total, now);
      }
    case AfterLoadend =>
  }
}
