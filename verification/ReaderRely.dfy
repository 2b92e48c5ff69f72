/**
  What a suspended frame may rely on while handlers run: public calls touch
  only generations at or above `G` and operations at or above `B`, the numbers
  that were still free when the frame was suspended.
*/
module ReaderRely {
  import opened Common
  import opened Bridge
  import opened Readers
  import opened ReaderLaws
  import opened ReaderMoves
  import opened ReaderEnds
  import opened ReaderTurns
  import opened ReaderSteps
  import opened ReaderCalls

  /** A reader of an old generation lost at most the result it had published. */
  ghost predicate OldReader(n: Native, n': Native) {
    n' == n || (!n.ready.Loading? && n' == n.(result := None))
  }

  ghost predicate OldGenerations(G: nat, m: Room, m': Room) {
    forall h: nat :: h < G ==>
      && TermsOf(m', h) == TermsOf(m, h) && EndsOf(m', h) == EndsOf(m, h)
      && PhaseOf(m'.f.log, h) == PhaseOf(m.f.log, h) && EventsOf(m'.f.log, h) == EventsOf(m.f.log, h)
      && (h in m.f.asked ==> h in m'.f.asked && m'.f.asked[h] == m.f.asked[h])
  }

  ghost predicate OldReaders(G: nat, m: Room, m': Room) {
    && |m.f.natives| <= |m'.f.natives|
    && (forall q :: 0 <= q < |m.f.natives| && m'.f.natives[q].generation < G ==>
          OldReader(m.f.natives[q], m'.f.natives[q]))
    && (forall q :: |m.f.natives| <= q < |m'.f.natives| ==>
          m'.f.natives[q].generation == 0 || G <= m'.f.natives[q].generation)
  }

  /** An old operation goes only with its generation, and is never re-entered. */
  ghost predicate OldOps(G: nat, B: nat, m: Room, m': Room) {
    && (forall x :: x < B && x in m'.f.pending ==> x in m.f.pending && m'.f.pending[x] == m.f.pending[x])
    && (forall x :: x in m.f.pending ==>
          var PendingOp(r, g) := m.f.pending[x];
          g < G && r < |m.f.natives| && Current(m'.f, r, g) ==> x in m'.f.pending && m'.f.pending[x] == m.f.pending[x])
    && (forall x :: x < B && x in m'.f.pending && x in m'.f.pumps ==>
          x in m.f.pumps && m'.f.pumps[x] == m.f.pumps[x])
  }

  ghost predicate Rely(G: nat, B: nat, m: Room, m': Room) {
    && G <= m.f.nextGeneration <= m'.f.nextGeneration && B <= m.b.next <= m'.b.next
    && OldGenerations(G, m, m') && OldReaders(G, m, m') && OldOps(G, B, m, m')
  }

  lemma RelyTrans(G: nat, B: nat, m0: Room, m1: Room, m2: Room)
    requires Rely(G, B, m0, m1) && Rely(G, B, m1, m2)
    ensures Rely(G, B, m0, m2)
  {
    forall x | x in m0.f.pending
      ensures var PendingOp(r, g) := m0.f.pending[x];
        g < G && r < |m0.f.natives| && Current(m2.f, r, g) ==>
          x in m2.f.pending && m2.f.pending[x] == m0.f.pending[x]
    {
      var PendingOp(r, g) := m0.f.pending[x];
      if g < G && r < |m0.f.natives| && Current(m2.f, r, g) {
        assert OldReader(m1.f.natives[r], m2.f.natives[r]);
        assert Current(m1.f, r, g);
      }
    }
  }

  /** Interference within the relation leaves every suspended frame in step. */
  lemma FrameRely(G: nat, B: nat, m: Room, m': Room, fr: Frame)
    requires FrameOk(m, fr) && fr.generation < G && fr.op < B && Rely(G, B, m, m')
    requires fr.reader < |m.f.natives|
    requires IsPump(fr.pause) && Current(m.f, fr.reader, fr.generation) ==> m.f.natives[fr.reader].ready.Loading?
    ensures FrameOk(m', fr)
  {
    var Frame(r, g, op, now, pause) := fr;
    if Current(m'.f, r, g) {
      assert OldReader(m.f.natives[r], m'.f.natives[r]);
      match pause
      case AfterLoadstart(s, chunk) => PumpOld(G, m, m', r, g, s);
      case AfterProgress(s) => PumpOld(G, m, m', r, g, s);
      case AfterFinal(s) =>
      case AfterTerminal(loaded, total) =>
      case AfterAbort(loaded, total) =>
      case AfterLoadend =>
    }
  }

  lemma PumpOld(G: nat, m: Room, m': Room, r: nat, g: nat, s: PumpState)
    requires PumpGood(m.f, r, g, s) && g < G && OldGenerations(G, m, m') && r < |m'.f.natives|
    requires m'.f.natives[r] == m.f.natives[r]
    ensures PumpGood(m'.f, r, g, s)
  {
  }

  // -------------------------------------------------------- calls that comply

  /** Moves that touch neither readers, jobs, events nor tables comply. */
  lemma TasksOnlyRely(G: nat, B: nat, m: Room, m': Room)
    requires m'.f == m.f.(tasks := m'.f.tasks) && m.b.next <= m'.b.next
    requires G <= m.f.nextGeneration && B <= m.b.next
    ensures Rely(G, B, m, m')
  {
    SameJobs(m, m');
  }

  lemma NewReaderRely(G: nat, B: nat, m: Room, batch: seq<ChunkCompletion>, busy: Option<nat>)
    requires Live(m, batch, busy) && G <= m.f.nextGeneration && B <= m.b.next
    ensures Rely(G, B, m, NewReader(m))
  {
    SameJobs(m, NewReader(m));
    forall x | x in m.f.pending ensures m.f.pending[x].reader < |m.f.natives| {
      assert OpLocal(m, batch, busy, x);
      assert RootOk(m, x);
    }
  }

  lemma ClearedRely(G: nat, B: nat, m: Room, r: nat)
    requires r < |m.f.natives| && !m.f.natives[r].ready.Loading? && G <= m.f.nextGeneration && B <= m.b.next
    ensures Rely(G, B, m, WithNative(m, r, m.f.natives[r].(result := None)))
  {
    SameJobs(m, WithNative(m, r, m.f.natives[r].(result := None)));
  }

  lemma RestartedRely(G: nat, B: nat, m: Room, batch: seq<ChunkCompletion>, busy: Option<nat>, r: nat, total: nat,
                      problem: Problem)
    requires Live(m, batch, busy) && r < |m.f.natives| && !m.f.natives[r].ready.Loading?
    requires G <= m.f.nextGeneration && B <= m.b.next
    ensures Rely(G, B, m, Restarted(m, r, total, problem))
  {
    var m' := Restarted(m, r, total, problem);
    IdleOwnsNothing(m, batch, busy, r);
    forall h: nat | h < G ensures TermsOf(m', h) == TermsOf(m, h) && EndsOf(m', h) == EndsOf(m, h) {
      AppendedViews(m, m', [Dispatch(r, m.f.nextGeneration, Error, 0, total)], 0, h);
    }
  }

  lemma StartedRely(G: nat, B: nat, m: Room, batch: seq<ChunkCompletion>, busy: Option<nat>, b': BridgeState, r: nat,
                    blob: seq<Byte>, kind: Kind)
    requires Live(m, batch, busy) && r < |m.f.natives| && !m.f.natives[r].ready.Loading?
    requires G <= m.f.nextGeneration && B <= m.b.next < b'.next
    ensures var g := m.f.nextGeneration;
      var m1 := Room(b', m.f.(nextGeneration := g + 1, active := m.f.active + 1));
      Rely(G, B, m, Started(m1, r, m.b.next, g, blob, kind))
  {
    hide Live;
    var g := m.f.nextGeneration;
    var m1 := Room(b', m.f.(nextGeneration := g + 1, active := m.f.active + 1));
    SameJobs(m, Started(m1, r, m.b.next, g, blob, kind));
    IdleOwnsNothing(m, batch, busy, r);
    NextUnknown(m, batch, busy);
  }

  lemma NoSlotRely(G: nat, B: nat, m: Room, batch: seq<ChunkCompletion>, busy: Option<nat>, r: nat, total: nat,
                   b': BridgeState)
    requires Live(m, batch, busy) && r < |m.f.natives| && !m.f.natives[r].ready.Loading?
    requires G <= m.f.nextGeneration && B <= m.b.next <= b'.next && Valid(b') && !b'.shutdown && b'.tokens == m.b.tokens
    requires forall x :: At(b', x) == At(m.b, x)
    ensures Rely(G, B, m, FailFast(m.(b := b'), r, total, Quota))
  {
    var m1 := m.(b := b');
    OtherClientMoved(m, b', batch, busy);
    TasksOnlyRely(G, B, m, m1);
    RestartedRely(G, B, m1, batch, busy, r, total, Quota);
    RelyTrans(G, B, m, m1, Restarted(m1, r, total, Quota));
  }

  lemma BadChunkRely(G: nat, B: nat, m: Room, b': BridgeState)
    requires G <= m.f.nextGeneration && B <= m.b.next <= b'.next
    ensures Rely(G, B, m, Room(b', m.f.(nextGeneration := m.f.nextGeneration + 1)))
  {
    SameJobs(m, Room(b', m.f.(nextGeneration := m.f.nextGeneration + 1)));
  }

  lemma ForgottenRely(G: nat, B: nat, m: Room, b': BridgeState, op: nat)
    requires G <= m.f.nextGeneration && B <= m.b.next <= b'.next && op !in m.f.pending
    ensures Rely(G, B, m, Room(b', m.f.(pumps := m.f.pumps - {op})))
  {
    SameJobs(m, Room(b', m.f.(pumps := m.f.pumps - {op})));
  }

  lemma RefusedRely(G: nat, B: nat, m: Room, batch: seq<ChunkCompletion>, busy: Option<nat>, r: nat, total: nat,
                    problem: Problem, b': BridgeState, op: nat)
    requires Live(m, batch, busy) && r < |m.f.natives| && !m.f.natives[r].ready.Loading? && op !in m.f.pending
    requires G <= m.f.nextGeneration && B <= m.b.next <= b'.next && Valid(b') && !b'.shutdown && b'.tokens == m.b.tokens
    requires forall x :: At(b', x) == At(m.b, x)
    ensures Rely(G, B, m, Restarted(Room(b', m.f.(pumps := m.f.pumps - {op})), r, total, problem))
  {
    var base := Room(b', m.f.(pumps := m.f.pumps - {op}));
    ForgottenPump(m, batch, busy, op);
    OtherClientMoved(m.(f := base.f), b', batch, busy);
    ForgottenRely(G, B, m, b', op);
    RestartedRely(G, B, base, batch, busy, r, total, problem);
    RelyTrans(G, B, m, base, Restarted(base, r, total, problem));
  }

  lemma BeginRely(G: nat, B: nat, m: Room, batch: seq<ChunkCompletion>, busy: Option<nat>, r: nat, blob: seq<Byte>,
                  kind: Kind, submit: Option<SubmitError>, b1: BridgeState, b2: BridgeState)
    requires Live(m, batch, busy) && r < |m.f.natives| && !m.f.natives[r].ready.Loading?
    requires G <= m.f.nextGeneration && B <= m.b.next && b1.next == m.b.next + 1
    requires b2 == Unreserve(b1, m.b.next).0 && b2.next == b1.next && Valid(b2) && !b2.shutdown && b2.tokens == m.b.tokens
    requires forall x :: At(b2, x) == At(m.b, x)
    ensures Rely(G, B, m, Begin(m.(b := b1), r, m.b.next, blob, kind, submit).0)
  {
    hide Live;
    var op := m.b.next;
    LiveBooks(m, batch, busy);
    NextUnknown(m, batch, busy);
    if !ChunkInRange(m.f.chunkSize) {
      BadChunkRely(G, B, m, b2);
    } else if submit.Some? {
      RefusedForm(m, b1, r, op, blob, submit.value);
      RefusedRely(G, B, m, batch, busy, r, |blob|, Core(SubmitFailure(submit.value)), b2, op);
    } else {
      StartedRely(G, B, m, batch, busy, b1, r, blob, kind);
    }
  }

  lemma GrantedRely(G: nat, B: nat, m: Room, batch: seq<ChunkCompletion>, busy: Option<nat>, r: nat, blob: seq<Byte>,
                    kind: Kind, submit: Option<SubmitError>)
    requires Live(m, batch, busy) && r < |m.f.natives| && !m.f.natives[r].ready.Loading?
    requires G <= m.f.nextGeneration && B <= m.b.next && Reserve(m.b).1.Ok?
    ensures Reserve(m.b).1.value == m.b.next
    ensures Rely(G, B, m, Begin(m.(b := Reserve(m.b).0), r, m.b.next, blob, kind, submit).0)
  {
    ReserveKeeps(m.b);
    GivenBack(m.b);
    BeginRely(G, B, m, batch, busy, r, blob, kind, submit, Reserve(m.b).0, Unreserve(Reserve(m.b).0, m.b.next).0);
  }

  lemma StartReadRely(G: nat, B: nat, m: Room, batch: seq<ChunkCompletion>, busy: Option<nat>, r: nat, blob: seq<Byte>,
                      kind: Kind, submit: Option<SubmitError>)
    requires Live(m, batch, busy) && r < |m.f.natives| && G <= m.f.nextGeneration && B <= m.b.next
    ensures Rely(G, B, m, StartRead(m, r, blob, kind, submit).0)
  {
    hide Begin;
    if m.f.natives[r].ready.Loading? {
    } else if m.f.active >= m.b.limit {
      RestartedRely(G, B, m, batch, busy, r, |blob|, Quota);
    } else if Reserve(m.b).1.Err? {
      ReserveKeeps(m.b);
      NoSlotRely(G, B, m, batch, busy, r, |blob|, Reserve(m.b).0);
    } else {
      GrantedRely(G, B, m, batch, busy, r, blob, kind, submit);
    }
  }

  lemma StartDataUrlRely(G: nat, B: nat, m: Room, batch: seq<ChunkCompletion>, busy: Option<nat>, r: nat,
                         blob: seq<Byte>, fits: bool, submit: Option<SubmitError>)
    requires Live(m, batch, busy) && r < |m.f.natives| && G <= m.f.nextGeneration && B <= m.b.next
    ensures Rely(G, B, m, StartDataUrl(m, r, blob, fits, submit).0)
  {
    if m.f.natives[r].ready.Loading? {
    } else if m.f.active >= m.b.limit {
      RestartedRely(G, B, m, batch, busy, r, |blob|, Quota);
    } else if !fits {
      RestartedRely(G, B, m, batch, busy, r, |blob|, TooLong);
    } else {
      StartReadRely(G, B, m, batch, busy, r, blob, DataUrl, submit);
    }
  }

  lemma FireRely(G: nat, B: nat, m: Room, e: Event)
    requires G <= e.generation && G <= m.f.nextGeneration && B <= m.b.next
    ensures Rely(G, B, m, FireE(m, e))
  {
    SameJobs(m, FireE(m, e));
    forall h: nat | h < G
      ensures PhaseOf(FireE(m, e).f.log, h) == PhaseOf(m.f.log, h)
      ensures EventsOf(FireE(m, e).f.log, h) == EventsOf(m.f.log, h)
    {
      FiredViews(m, e, h);
      PickedAppend(m.f.log, e, EventGen, h);
    }
  }

  lemma AbortEndRely(G: nat, B: nat, m: Room, r: nat, op: nat, n: Native)
    requires Valid(m.b) && r < |m.f.natives| && op in m.f.pending && m.f.pending[op].reader == r
    requires G <= m.f.nextGeneration == n.generation && B <= m.b.next
    ensures Rely(G, B, m, EndOp(m, r, op, n, n.generation + 1, [], []))
  {
    var m' := EndOp(m, r, op, n, n.generation + 1, [], []);
    assert m'.b.next == m.b.next by {
      UnreserveKeeps(m.b, op);
    }
    assert OldGenerations(G, m, m') by {
      forall h: nat | h < G ensures TermsOf(m', h) == TermsOf(m, h) && EndsOf(m', h) == EndsOf(m, h) {
        AppendedViews(m, m', [], 0, h);
      }
    }
    assert OldReaders(G, m, m');
    assert OldOps(G, B, m, m');
  }

  lemma AbortRely(G: nat, B: nat, m: Room, batch: seq<ChunkCompletion>, busy: Option<nat>, r: nat, now: int)
    requires Live(m, batch, busy) && r < |m.f.natives| && G <= m.f.nextGeneration && B <= m.b.next
    ensures Rely(G, B, m, AbortCall(m, r, now).0)
  {
    hide Rely;
    if m.f.natives[r].ready.Loading? {
      assert ReaderOk(m, r);
      var n, g, op := m.f.natives[r], m.f.nextGeneration, OpOf(m.f.pending, r);
      AbortForm(m, r, now);
      AbortEndRely(G, B, m, r, op, AbortedNative(n, g));
      var m1 := EndOp(m, r, op, AbortedNative(n, g), g + 1, [], []);
      FireRely(G, B, m1, Event(r, g, Abort, n.loaded, n.total, now));
      RelyTrans(G, B, m, m1, AbortCall(m, r, now).0);
    } else {
      ClearedRely(G, B, m, r);
    }
  }

  lemma ResumeAbortRely(G: nat, B: nat, m: Room, r: nat, g: nat, now: int, loaded: nat, total: nat)
    requires G <= g && G <= m.f.nextGeneration && B <= m.b.next
    ensures Rely(G, B, m, ResumeAbort(m, r, g, now, loaded, total).0)
  {
    if Current(m.f, r, g) {
      var m1 := WithNative(m, r, m.f.natives[r].(terminalDispatched := true));
      SameJobs(m, m1);
      assert Rely(G, B, m, m1);
      if !m.b.shutdown {
        FireRely(G, B, m1, Event(r, g, LoadEnd, loaded, total, now));
        RelyTrans(G, B, m, m1, ResumeAbort(m, r, g, now, loaded, total).0);
      }
    } else {
      SameJobs(m, m);
    }
  }

  lemma WorkerRely(G: nat, B: nat, m: Room, i: nat, failure: Option<FileApiError>)
    requires Valid(m.b) && i < |m.f.tasks| && G <= m.f.nextGeneration && B <= m.b.next
    ensures Rely(G, B, m, WorkerAnswers(m, i, failure))
  {
    PushReaderKeeps(m.b, ChunkCompletion(m.f.tasks[i].op, m.f.tasks[i].generation, Answer(m.f.tasks[i], failure)));
    TasksOnlyRely(G, B, m, WorkerAnswers(m, i, failure));
  }
}
