/** The footprint of every FileReader step: its own operation, whose slot and entry go together. */
module ReaderFoot {
  import opened Common
  import opened Bridge
  import opened Readers

  /** A step about operation `op`: no id is minted, no entry added, and slot and entry of `op` go together. */
  ghost predicate Within(m: Room, m': Room, op: nat) {
    && Foot(m.b, m'.b, {op}) && m'.b.next == m.b.next
    && m'.f.pending.Keys <= m.f.pending.Keys && m.f.pending.Keys <= m'.f.pending.Keys + {op}
    && (op in m.f.pending && op in m'.b.tokens ==> op in m'.f.pending)
  }

  lemma WithinTrans(m0: Room, m1: Room, m2: Room, op: nat)
    requires Within(m0, m1, op) && Within(m1, m2, op)
    ensures Within(m0, m2, op)
  {
    FootTrans(m0.b, m1.b, m2.b, {op});
  }

  lemma WithinSame(m: Room, m': Room, op: nat)
    requires Valid(m.b) && m'.b == m.b && m'.f.pending == m.f.pending
    ensures Within(m, m', op)
  {
    FootSame(m.b, {op});
  }

  lemma SettleReleaseFoot(m: Room, op: nat)
    requires Valid(m.b)
    ensures Within(m, SettleRelease(m, op), op)
  {
    WithinSame(m, m, op);
    FootUnreserve(m.b, op, {op});
    UnreserveKeeps(m.b, op);
  }

  /** A release followed by nothing that matters here, from a state that differs in nothing that matters. */
  lemma ReleasedFoot(m: Room, m1: Room, m2: Room, op: nat)
    requires Valid(m.b) && m1.b == m.b && m1.f.pending == m.f.pending
    requires m2.b == SettleRelease(m1, op).b && m2.f.pending == SettleRelease(m1, op).f.pending
    ensures Within(m, m2, op)
  {
    SettleReleaseFoot(m1, op);
  }

  lemma FailFoot(m: Room, r: nat, op: nat, g: nat, total: nat, problem: Problem)
    requires Valid(m.b)
    ensures Within(m, FailOperation(m, r, op, g, total, problem), op)
  {
    WithinSame(m, m, op);
    if Current(m.f, r, g) {
      var n := m.f.natives[r].(ready := Done, result := None, error := Some(problem), terminalDispatched := false);
      ReleasedFoot(m, WithNative(m, r, n), FailOperation(m, r, op, g, total, problem), op);
    }
  }

  lemma PublishFoot(m: Room, r: nat, op: nat, g: nat, state: PumpState, packError: Option<FileApiError>)
    requires Valid(m.b)
    ensures Within(m, Publish(m, r, op, g, state, packError), op)
  {
    WithinSame(m, m, op);
    if state.kind.DataUrl? && packError.Some? {
      FailFoot(m, r, op, g, state.total, Core(packError.value));
    } else if Current(m.f, r, g) {
      var result := Packaged(state.kind, state.buffered);
      var n := m.f.natives[r].(ready := Done, result := Some(result), error := None,
                               terminalDispatched := false, loaded := state.total);
      var m1 := WithNative(m, r, n);
      var m2 := m1.(f := m1.f.(published := m1.f.published + [Publication(g, result, |m1.f.log|)]));
      ReleasedFoot(m, m2, Publish(m, r, op, g, state, packError), op);
    }
  }

  lemma FinishFoot(m: Room, r: nat, g: nat, op: nat, state: PumpState, now: int, packError: Option<FileApiError>)
    requires Valid(m.b)
    ensures Within(m, FinishAtEof(m, r, g, op, state, now, packError).0, op)
  {
    WithinSame(m, m, op);
    WithinSame(m, Fired(m, r, g, Progress, state.total, state.total, now), op);
    PublishFoot(m, r, op, g, state, packError);
  }

  lemma SubmitFoot(m: Room, r: nat, g: nat, op: nat, state: PumpState, submit: Option<SubmitError>)
    requires Valid(m.b)
    ensures Within(m, Stored(SubmitNext(m, r, g, op, state, submit), op, state), op)
  {
    var m1 := SubmitNext(m, r, g, op, state, submit);
    WithinSame(m, m, op);
    if submit.Some? {
      FailFoot(m, r, op, g, state.total, Core(SubmitFailure(submit.value)));
    } else {
      WithinSame(m, m1, op);
    }
    WithinSame(m1, Stored(m1, op, state), op);
    WithinTrans(m, m1, Stored(m1, op, state), op);
  }

  lemma AfterChunkFoot(m: Room, r: nat, g: nat, op: nat, state: PumpState, now: int, submit: Option<SubmitError>,
                       packError: Option<FileApiError>)
    requires Valid(m.b)
    ensures Within(m, AfterChunk(m, r, g, op, state, now, submit, packError).0, op)
  {
    FinishFoot(m, r, g, op, state, now, packError);
    SubmitFoot(m, r, g, op, state, submit);
  }

  lemma ProgressFoot(m: Room, r: nat, g: nat, op: nat, state: PumpState, now: int, submit: Option<SubmitError>,
                     packError: Option<FileApiError>)
    requires Valid(m.b)
    ensures Within(m, ResumeProgress(m, r, g, op, state, now, submit, packError).0, op)
  {
    WithinSame(m, m, op);
    AfterChunkFoot(m, r, g, op, state, now, submit, packError);
  }

  lemma ChunkFoot(m: Room, r: nat, g: nat, op: nat, state: PumpState, bytes: seq<Byte>, now: int,
                  submit: Option<SubmitError>, packError: Option<FileApiError>)
    requires Valid(m.b) && Current(m.f, r, g)
    ensures Within(m, ApplyChunk(m, r, g, op, state, bytes, now, submit, packError).0, op)
  {
    var fed := Fed(state, bytes);
    var m1 := WithNative(m, r, m.f.natives[r].(loaded := fed.loaded));
    var m2 := ApplyChunk(m, r, g, op, state, bytes, now, submit, packError).0;
    WithinSame(m, m1, op);
    WithinSame(m, Fired(m1, r, g, Progress, fed.loaded, fed.total, now), op);
    ProgressFoot(m1, r, g, op, fed.(lastProgressAt := now), now, submit, packError);
    AfterChunkFoot(m1, r, g, op, fed, now, submit, packError);
  }

  lemma PumpFoot(m: Room, r: nat, g: nat, op: nat, state: PumpState, chunk: ChunkKind, now: int,
                 submit: Option<SubmitError>, packError: Option<FileApiError>)
    requires Valid(m.b) && !m.b.shutdown
    ensures Within(m, PumpEnter(m, r, g, op, state, chunk, now, submit, packError).0, op)
  {
    WithinSame(m, m, op);
    if !Current(m.f, r, g) {
    } else if !state.loadstartSent {
      WithinSame(m, PumpEnter(m, r, g, op, state, chunk, now, submit, packError).0, op);
    } else {
      match chunk
      case Failed(error) => FailFoot(m, r, op, g, state.total, Core(error));
      case Eof => FinishFoot(m, r, g, op, state, now, packError);
      case Chunk(bytes) => ChunkFoot(m, r, g, op, state, bytes, now, submit, packError);
    }
  }

  /** The operation a job may touch. */
  function JobOp(j: Job): nat {
    if j.Pump? then j.op else 0
  }

  lemma JobFoot(m: Room, j: Job, now: int, submit: Option<SubmitError>, packError: Option<FileApiError>)
    requires Valid(m.b) && !m.b.shutdown
    ensures Within(m, JobEnter(m, j, now, submit, packError).0, JobOp(j))
  {
    match j
    case Pump(r, g, op, state, chunk) => PumpFoot(m, r, g, op, state, chunk, now, submit, packError);
    case Dispatch(r, g, kind, loaded, total) => WithinSame(m, JobEnter(m, j, now, submit, packError).0, 0);
  }

  lemma ResumeFoot(m: Room, fr: Frame, submit: Option<SubmitError>, packError: Option<FileApiError>)
    requires Valid(m.b)
    ensures Within(m, Resume(m, fr, submit, packError).0, fr.op)
  {
    var Frame(r, g, op, now, pause) := fr;
    WithinSame(m, m, op);
    match pause
    case AfterLoadstart(state, chunk) => WithinSame(m, Resume(m, fr, submit, packError).0, op);
    case AfterProgress(state) => ProgressFoot(m, r, g, op, state, now, submit, packError);
    case AfterFinal(state) => PublishFoot(m, r, op, g, state, packError);
    case AfterTerminal(loaded, total) => WithinSame(m, Resume(m, fr, submit, packError).0, op);
    case AfterAbort(loaded, total) => WithinSame(m, Resume(m, fr, submit, packError).0, op);
    case AfterLoadend =>
  }

  /** What `abort()` touches. */
  ghost function AbortOp(m: Room, r: nat): nat {
    if HasOp(m.f.pending, r) then OpOf(m.f.pending, r) else 0
  }

  lemma AbortParts(m: Room, r: nat, now: int)
    requires r < |m.f.natives|
    ensures var m' := AbortCall(m, r, now).0;
      || (m'.b == m.b && m'.f.pending == m.f.pending)
      || (HasOp(m.f.pending, r) && m'.b == Unreserve(m.b, OpOf(m.f.pending, r)).0
          && m'.f.pending == m.f.pending - {OpOf(m.f.pending, r)})
  {
  }

  lemma DroppedFoot(m: Room, m': Room, op: nat)
    requires Valid(m.b) && m'.b == Unreserve(m.b, op).0 && m'.f.pending == m.f.pending - {op}
    ensures Within(m, m', op)
  {
    FootUnreserve(m.b, op, {op});
    UnreserveKeeps(m.b, op);
  }

  lemma AbortFoot(m: Room, r: nat, now: int)
    requires Valid(m.b) && r < |m.f.natives|
    ensures Within(m, AbortCall(m, r, now).0, AbortOp(m, r))
  {
    var m' := AbortCall(m, r, now).0;
    AbortParts(m, r, now);
    if m'.b == m.b && m'.f.pending == m.f.pending {
      WithinSame(m, m', AbortOp(m, r));
    } else {
      DroppedFoot(m, m', OpOf(m.f.pending, r));
    }
  }

  lemma BeginBridge(m: Room, r: nat, op: nat, blob: seq<Byte>, kind: Kind, submit: Option<SubmitError>)
    requires r < |m.f.natives|
    ensures var b' := Begin(m, r, op, blob, kind, submit).0.b; b' == m.b || b' == Unreserve(m.b, op).0
  {
  }

  lemma StartReadBridge(m: Room, r: nat, blob: seq<Byte>, kind: Kind, submit: Option<SubmitError>)
    requires r < |m.f.natives|
    ensures var b' := StartRead(m, r, blob, kind, submit).0.b;
      var (b1, reserved) := Reserve(m.b);
      b' == m.b || b' == b1 || (reserved.Ok? && b' == Unreserve(b1, reserved.value).0)
  {
    if Reserve(m.b).1.Ok? {
      BeginBridge(m.(b := Reserve(m.b).0), r, Reserve(m.b).1.value, blob, kind, submit);
    }
  }

  lemma StartReadFoot(m: Room, r: nat, blob: seq<Byte>, kind: Kind, submit: Option<SubmitError>)
    requires Valid(m.b) && r < |m.f.natives|
    ensures Foot(m.b, StartRead(m, r, blob, kind, submit).0.b, {})
  {
    StartReadBridge(m, r, blob, kind, submit);
    FootAcquire(m.b);
  }

  lemma StartDataUrlFoot(m: Room, r: nat, blob: seq<Byte>, fits: bool, submit: Option<SubmitError>)
    requires Valid(m.b) && r < |m.f.natives|
    ensures Foot(m.b, StartDataUrl(m, r, blob, fits, submit).0.b, {})
  {
    FootSame(m.b, {});
    StartReadFoot(m, r, blob, DataUrl, submit);
  }
}
