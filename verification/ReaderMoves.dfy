/**
  The elementary moves that FileReader steps are made of, and what each keeps.
*/
module ReaderMoves {
  import opened Common
  import opened Bridge
  import opened Readers
  import opened ReaderLaws

  /** Nothing about any operation but `op` differs. */
  ghost predicate OtherOps(m: Room, batch: seq<ChunkCompletion>, m': Room, batch': seq<ChunkCompletion>, op: nat) {
    && (forall x :: x != op ==>
          TasksOf(m', x) == TasksOf(m, x) && PumpsOf(m', x) == PumpsOf(m, x) && Of(batch', x) == Of(batch, x))
    && (forall x :: x != op && x in m.f.pending ==> At(m'.b, x) == At(m.b, x))
    && OtherEntries(m.f, m'.f, op)
  }

  ghost predicate OtherEntries(f: ReaderState, f': ReaderState, op: nat) {
    forall x :: x != op ==>
      && (x in f.pending <==> x in f'.pending)
      && (x in f.pending ==>
            && f'.pending[x] == f.pending[x]
            && (x in f.payloads ==> x in f'.payloads && f'.payloads[x] == f.payloads[x])
            && (x in f.pumps ==> x in f'.pumps && f'.pumps[x] == f.pumps[x]))
  }

  /** Nothing about any generation but `g` differs. */
  ghost predicate OtherGens(m: Room, m': Room, g: nat) {
    && (forall h :: h != g ==>
          && TermsOf(m', h) == TermsOf(m, h) && EndsOf(m', h) == EndsOf(m, h)
          && PhaseOf(m'.f.log, h) == PhaseOf(m.f.log, h)
          && (h in m.f.asked <==> h in m'.f.asked))
    && (forall h :: h != g && h in m.f.asked ==> m'.f.asked[h] == m.f.asked[h])
    && (m'.f.published == m.f.published
        || exists p: Publication :: p.generation == g && m'.f.published == m.f.published + [p])
  }

  /** Only reader `r`, its operation `op` and generation `g` are touched. */
  ghost predicate Delta(m: Room, batch: seq<ChunkCompletion>, m': Room, batch': seq<ChunkCompletion>,
                        r: nat, op: nat, g: nat) {
    && Later(m, m')
    && r < |m.f.natives| && |m'.f.natives| == |m.f.natives|
    && (forall q :: 0 <= q < |m.f.natives| && q != r ==> m'.f.natives[q] == m.f.natives[q])
    && OtherOps(m, batch, m', batch', op) && OtherGens(m, m', g)
  }

  /** `op` is the only operation reader `r` has or gets. */
  ghost predicate OwnOnly(f: ReaderState, f': ReaderState, r: nat, op: nat) {
    && (forall x :: x in f.pending && f.pending[x].reader == r ==> x == op)
    && (op in f.pending ==> f.pending[op].reader == r)
    && (op in f'.pending ==> f'.pending[op].reader == r)
  }

  /** `g` is the generation of `r` or nobody's. */
  ghost predicate OwnGeneration(f: ReaderState, r: nat, g: nat) {
    0 < g && forall q :: 0 <= q < |f.natives| && f.natives[q].generation == g ==> q == r
  }

  lemma DeltaReader(m: Room, batch: seq<ChunkCompletion>, m': Room, batch': seq<ChunkCompletion>,
                    r: nat, op: nat, g: nat, q: nat)
    requires Delta(m, batch, m', batch', r, op, g) && OwnGeneration(m.f, r, g) && q != r
    ensures SameReader(m, m', q)
  {
    if q < |m.f.natives| {
      var h := m.f.natives[q].generation;
      assert h != g;
    }
  }

  lemma DeltaElsewhere(m: Room, batch: seq<ChunkCompletion>, m': Room, batch': seq<ChunkCompletion>,
                       r: nat, op: nat, g: nat)
    requires Delta(m, batch, m', batch', r, op, g)
    requires OwnOnly(m.f, m'.f, r, op) && OwnGeneration(m.f, r, g)
    ensures Elsewhere(m, batch, m', batch', r, op)
  {
    forall q | q != r ensures SameReader(m, m', q) {
      DeltaReader(m, batch, m', batch', r, op, g, q);
    }
    forall x | x != op ensures SameOp(m, batch, m', batch', x) {
      if x in m.f.pending {
        assert m.f.pending[x].reader != r;
      }
    }
  }

  /** The generation facts of all other generations. */
  lemma DeltaGens(m: Room, batch: seq<ChunkCompletion>, m': Room, batch': seq<ChunkCompletion>, r: nat, op: nat, g: nat)
    requires Delta(m, batch, m', batch', r, op, g)
    requires forall h :: GenLocal(m, h)
    requires GenLocal(m', g)
    ensures forall h :: GenLocal(m', h)
  {
    forall h ensures GenLocal(m', h) {
      assert GenLocal(m, h);
    }
  }

  /** One move about reader `r`, operation `op` and generation `g`. */
  lemma Moved(m: Room, batch: seq<ChunkCompletion>, busy: Option<nat>,
              m': Room, batch': seq<ChunkCompletion>, busy': Option<nat>, r: nat, op: nat, g: nat)
    requires Live(m, batch, busy) && Delta(m, batch, m', batch', r, op, g)
    requires OwnOnly(m.f, m'.f, r, op) && OwnGeneration(m.f, r, g)
    requires Valid(m'.b) && !m'.b.shutdown && Basics(m'.f) && PublishedOk(m'.f)
    requires forall x :: x != op ==> (busy == Some(x) <==> busy' == Some(x))
    requires OpLocal(m', batch', busy', op) && ReaderOk(m', r) && GenLocal(m', g)
    ensures Live(m', batch', busy')
  {
    DeltaElsewhere(m, batch, m', batch', r, op, g);
    DeltaGens(m, batch, m', batch', r, op, g);
    Rebuild(m, batch, busy, m', batch', busy', r, op);
  }

  lemma LiveBooks(m: Room, batch: seq<ChunkCompletion>, busy: Option<nat>)
    requires Live(m, batch, busy)
    ensures Valid(m.b) && !m.b.shutdown && Basics(m.f) && PublishedOk(m.f)
  {
  }

  lemma LiveReader(m: Room, batch: seq<ChunkCompletion>, busy: Option<nat>, r: nat)
    requires Live(m, batch, busy) && r < |m.f.natives|
    ensures ReaderOk(m, r)
  {
  }

  // ---------------------------------------------------------------- appending

  lemma EnqueuedViews(m: Room, j: Job, x: nat, g: nat)
    ensures PumpsOf(Enqueued(m, j), x) == PumpsOf(m, x) + (if PumpKey(j) == x + 1 then [j] else [])
    ensures TermsOf(Enqueued(m, j), g) == TermsOf(m, g) + (if TermKey(j) == g + 1 then [j] else [])
    ensures EndsOf(Enqueued(m, j), g) == EndsOf(m, g) + (if EndKey(j) == g + 1 then [j] else [])
    ensures TasksOf(Enqueued(m, j), x) == TasksOf(m, x)
  {
    PickedAppend(m.f.jobs, j, PumpKey, x + 1);
    PickedAppend(m.f.jobs, j, TermKey, g + 1);
    PickedAppend(m.f.jobs, j, EndKey, g + 1);
  }

  /** Only these keys are read through views, so equal fields mean equal views. */
  lemma SameJobs(m: Room, m': Room)
    requires m'.f.jobs == m.f.jobs
    ensures forall x :: PumpsOf(m', x) == PumpsOf(m, x)
    ensures forall g :: TermsOf(m', g) == TermsOf(m, g) && EndsOf(m', g) == EndsOf(m, g)
  {
  }

  /** The operation a loading reader has. */
  lemma LoadingHas(m: Room, batch: seq<ChunkCompletion>, busy: Option<nat>, r: nat, op: nat)
    requires Live(m, batch, busy) && op in m.f.pending && m.f.pending[op].reader == r
    ensures OpOk(m, batch, busy, op) && r < |m.f.natives| && ReaderOk(m, r)
    ensures OwnGeneration(m.f, r, m.f.pending[op].generation)
    ensures m.f.natives[r].generation == m.f.pending[op].generation && m.f.natives[r].ready.Loading?
  {
    assert OpLocal(m, batch, busy, op);
    assert RootOk(m, op);
    assert ReaderOk(m, r);
    var g := m.f.pending[op].generation;
    forall q | 0 <= q < |m.f.natives| && m.f.natives[q].generation == g ensures q == r {
    }
  }

  // ---------------------------------------------------------- firing an event

  lemma FiredViews(m: Room, e: Event, h: nat)
    ensures PhaseOf(Fired(m, e.reader, e.generation, e.kind, e.loaded, e.total, e.at).f.log, h)
         == if e.generation == h then Next(PhaseOf(m.f.log, h), e) else PhaseOf(m.f.log, h)
  {
    PhaseAppend(m.f.log, e, h);
  }

  function FireE(m: Room, e: Event): Room {
    Fired(m, e.reader, e.generation, e.kind, e.loaded, e.total, e.at)
  }

  lemma PublishedFire(m: Room, e: Event)
    requires PublishedOk(m.f)
    ensures PublishedOk(FireE(m, e).f)
  {
    forall i | 0 <= i < |m.f.published|
      ensures PublicationOk(FireE(m, e).f, m.f.published[i])
    {
      assert PublicationOk(m.f, m.f.published[i]);
      assert (m.f.log + [e])[..m.f.published[i].at] == m.f.log[..m.f.published[i].at];
    }
  }

  /**
    An event may fire when the trace allows it, no terminal job of its
    generation is queued, and the reader's operation, if any, is the busy one.
  */
  lemma FireKeeps(m: Room, batch: seq<ChunkCompletion>, busy: Option<nat>, e: Event, op: nat)
    requires Live(m, batch, busy) && Current(m.f, e.reader, e.generation) && 0 < e.generation
    requires TermsOf(m, e.generation) == [] && EndsOf(m, e.generation) == []
    requires OwnOnly(m.f, m.f, e.reader, op) && (op in m.f.pending ==> busy == Some(op))
    requires !Next(PhaseOf(m.f.log, e.generation), e).Broken?
    ensures Live(FireE(m, e), batch, busy)
  {
    var m' := FireE(m, e);
    var r, g := e.reader, e.generation;
    forall h ensures PhaseOf(m'.f.log, h) == if g == h then Next(PhaseOf(m.f.log, h), e) else PhaseOf(m.f.log, h) {
      FiredViews(m, e, h);
    }
    SameJobs(m, m');
    PublishedFire(m, e);
    assert ReaderOk(m, r) && OpLocal(m, batch, busy, op) && GenLocal(m, g);
    assert OpLocal(m', batch, busy, op) by {
      if op in m.f.pending {
        assert Work(m', batch, op) == 0;
        assert TasksOf(m', op) == [] && PumpsOf(m', op) == [] && Of(batch, op) == [] && At(m'.b, op).readerQ == [];
        assert RootOk(m', op);
      }
    }
    assert ReaderOk(m', r);
    Moved(m, batch, busy, m', batch, busy, r, op, g);
  }

  // ------------------------------------------------------------ popping a job

  function JobPopped(m: Room): Room
    requires m.f.jobs != []
  {
    m.(f := m.f.(jobs := m.f.jobs[1..]))
  }

  lemma PoppedViews(m: Room, x: nat, g: nat)
    requires m.f.jobs != []
    ensures var j := m.f.jobs[0];
      && PumpsOf(m, x) == (if PumpKey(j) == x + 1 then [j] else []) + PumpsOf(JobPopped(m), x)
      && TermsOf(m, g) == (if TermKey(j) == g + 1 then [j] else []) + TermsOf(JobPopped(m), g)
      && EndsOf(m, g) == (if EndKey(j) == g + 1 then [j] else []) + EndsOf(JobPopped(m), g)
      && TasksOf(JobPopped(m), x) == TasksOf(m, x)
  {
  }

  /** The operation whose job is at the head, if it is a live pump. */
  function HeadOp(m: Room): Option<nat>
    requires m.f.jobs != []
  {
    var j := m.f.jobs[0];
    if j.Pump? && j.op in m.f.pending then Some(j.op) else None
  }

  /** The live pump at the head: its token is now with the running job. */
  lemma PoppedBusy(m: Room, batch: seq<ChunkCompletion>, x: nat)
    requires m.f.jobs != [] && m.f.jobs[0].Pump? && m.f.jobs[0].op == x
    requires x in m.f.pending && OpOk(m, batch, None, x)
    ensures OpOk(JobPopped(m), batch, Some(x), x)
  {
    var m' := JobPopped(m);
    PoppedViews(m, x, 0);
    assert |PumpsOf(m, x)| == 1;
    assert TasksOf(m', x) == [] && At(m'.b, x).readerQ == [] && Of(batch, x) == [] && PumpsOf(m', x) == [];
    assert RootOk(m', x);
  }

  lemma PoppedOp(m: Room, batch: seq<ChunkCompletion>, x: nat)
    requires Live(m, batch, None) && m.f.jobs != []
    ensures OpLocal(JobPopped(m), batch, HeadOp(m), x)
  {
    assert OpLocal(m, batch, None, x);
    PoppedViews(m, x, 0);
    if PumpKey(m.f.jobs[0]) != x + 1 {
      OpFrame(m, batch, None, JobPopped(m), batch, HeadOp(m), x);
    } else if x in m.f.pending {
      PoppedBusy(m, batch, x);
    } else {
      assert forall j :: j in PumpsOf(JobPopped(m), x) ==> j in PumpsOf(m, x);
    }
  }

  lemma PumpSameParts(f: ReaderState, f': ReaderState, r: nat, g: nat, s: PumpState)
    requires f'.natives == f.natives && f'.asked == f.asked && f'.log == f.log && PumpGood(f, r, g, s)
    ensures PumpGood(f', r, g, s)
  {
  }

  lemma PoppedReader(m: Room, q: nat)
    requires m.f.jobs != [] && q < |m.f.natives| && ReaderOk(m, q)
    ensures ReaderOk(JobPopped(m), q)
  {
    var g := m.f.natives[q].generation;
    var m' := JobPopped(m);
    PoppedViews(m, 0, g);
    if m.f.jobs[0].Dispatch? && m.f.jobs[0].generation == g {
      assert |TermsOf(m, g)| == 1 ==> TermsOf(m', g) == [] || TermsOf(m', g) == TermsOf(m, g);
      assert |EndsOf(m, g)| == 1 ==> EndsOf(m', g) == [] || EndsOf(m', g) == EndsOf(m, g);
    } else {
      assert TermsOf(m', g) == TermsOf(m, g) && EndsOf(m', g) == EndsOf(m, g);
    }
    assert forall j :: TermGood(m'.f, q, g, j) == TermGood(m.f, q, g, j);
  }

  /** Taking the head job never breaks anything; a live pump becomes the busy one. */
  lemma PopKeeps(m: Room, batch: seq<ChunkCompletion>)
    requires Live(m, batch, None) && m.f.jobs != []
    ensures Live(JobPopped(m), batch, HeadOp(m))
  {
    var m' := JobPopped(m);
    forall x ensures OpLocal(m', batch, HeadOp(m), x) {
      PoppedOp(m, batch, x);
    }
    forall q | 0 <= q < |m'.f.natives| ensures ReaderOk(m', q) {
      PoppedReader(m, q);
    }
    forall g ensures GenLocal(m', g) {
      assert GenLocal(m, g);
      PoppedViews(m, 0, g);
    }
  }

  // ------------------------------------------------------ native state changes

  /** Losing the result, or gaining the terminal mark once no job is left to set it. */
  ghost predicate FlagsOnly(m: Room, n: Native, n': Native) {
    && !n.ready.Loading?
    && n' == n.(result := n'.result, terminalDispatched := n'.terminalDispatched)
    && (n'.terminalDispatched != n.terminalDispatched ==>
          && n.ready.Done? && n'.terminalDispatched
          && TermsOf(m, n.generation) == [] && EndsOf(m, n.generation) == [])
  }

  lemma FlagsReader(m: Room, r: nat, n': Native)
    requires r < |m.f.natives| && ReaderOk(m, r) && FlagsOnly(m, m.f.natives[r], n')
    ensures ReaderOk(WithNative(m, r, n'), r)
  {
    var m' := WithNative(m, r, n');
    SameJobs(m, m');
    assert forall j :: TermGood(m'.f, r, n'.generation, j) == TermGood(m.f, r, n'.generation, j);
  }

  lemma FlagsOp(m: Room, batch: seq<ChunkCompletion>, busy: Option<nat>, r: nat, n': Native, x: nat)
    requires Live(m, batch, busy) && r < |m.f.natives| && FlagsOnly(m, m.f.natives[r], n')
    ensures OpLocal(WithNative(m, r, n'), batch, busy, x)
  {
    assert OpLocal(m, batch, busy, x);
    SameJobs(m, WithNative(m, r, n'));
    if x in m.f.pending {
      LoadingHas(m, batch, busy, m.f.pending[x].reader, x);
    }
    OpFrame(m, batch, busy, WithNative(m, r, n'), batch, busy, x);
  }

  /** A reader that is not loading may lose its result and gain the terminal mark. */
  lemma NativeKeeps(m: Room, batch: seq<ChunkCompletion>, busy: Option<nat>, r: nat, n': Native)
    requires Live(m, batch, busy) && r < |m.f.natives| && FlagsOnly(m, m.f.natives[r], n')
    ensures Live(WithNative(m, r, n'), batch, busy)
  {
    var m' := WithNative(m, r, n');
    SameJobs(m, m');
    forall x ensures OpLocal(m', batch, busy, x) {
      FlagsOp(m, batch, busy, r, n', x);
    }
    forall q | 0 <= q < |m'.f.natives| ensures ReaderOk(m', q) {
      assert ReaderOk(m, q);
      if q == r {
        FlagsReader(m, r, n');
      } else {
        ReaderFrame(m, m', q);
      }
    }
    forall g ensures GenLocal(m', g) {
      assert GenLocal(m, g);
    }
  }

  /** The `loadend` that follows a terminal event. */
  lemma EnqueueEndKeeps(m: Room, batch: seq<ChunkCompletion>, busy: Option<nat>, r: nat, g: nat, loaded: nat, total: nat)
    requires Live(m, batch, busy) && Current(m.f, r, g) && 0 < g
    requires m.f.natives[r].ready.Done? && m.f.natives[r].terminalDispatched && EndsOf(m, g) == []
    requires PhaseOf(m.f.log, g) == Ended(r, loaded, total)
    ensures Live(Enqueued(m, Dispatch(r, g, LoadEnd, loaded, total)), batch, busy)
  {
    var j := Dispatch(r, g, LoadEnd, loaded, total);
    var m' := Enqueued(m, j);
    forall x, h
      ensures PumpsOf(m', x) == PumpsOf(m, x)
      ensures TermsOf(m', h) == TermsOf(m, h)
      ensures EndsOf(m', h) == EndsOf(m, h) + (if h == g then [j] else [])
    {
      EnqueuedViews(m, j, x, h);
    }
    assert ReaderOk(m, r) && GenLocal(m, g) && g < m.f.nextGeneration;
    forall x ensures OpLocal(m', batch, busy, x) {
      assert OpLocal(m, batch, busy, x);
      EnqueuedOther(m, batch, busy, j, x);
    }
    forall q | 0 <= q < |m'.f.natives| ensures ReaderOk(m', q) {
      assert ReaderOk(m, q);
      EnqueuedReader(m, j, q);
    }
    forall h ensures GenLocal(m', h) {
      assert GenLocal(m, h);
      EnqueuedViews(m, j, 0, h);
    }
  }

  /** A dispatch job is invisible to every operation. */
  lemma EnqueuedOther(m: Room, batch: seq<ChunkCompletion>, busy: Option<nat>, j: Job, x: nat)
    requires OpLocal(m, batch, busy, x) && j.Dispatch?
    ensures OpLocal(Enqueued(m, j), batch, busy, x)
  {
    EnqueuedViews(m, j, x, 0);
    OpFrame(m, batch, busy, Enqueued(m, j), batch, busy, x);
  }

  lemma EnqueuedReader(m: Room, j: Job, q: nat)
    requires q < |m.f.natives| && ReaderOk(m, q) && j.Dispatch?
    requires j.kind.LoadEnd? && (m.f.natives[q].generation == j.generation ==>
      && j.reader == q && m.f.natives[q].ready.Done? && m.f.natives[q].terminalDispatched
      && EndsOf(m, j.generation) == [] && PhaseOf(m.f.log, j.generation) == Ended(q, j.loaded, j.total))
    ensures ReaderOk(Enqueued(m, j), q)
  {
    EnqueuedViews(m, j, 0, m.f.natives[q].generation);
  }
}
