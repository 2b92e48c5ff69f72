/**
  How FileReader operations begin and end: one slot, root and payload come and
  go together, and the reader's generation says who may still speak.
*/
module ReaderEnds {
  import opened Common
  import opened Bridge
  import opened Readers
  import opened ReaderLaws
  import opened ReaderMoves

  // ------------------------------------------------------------------- ending

  /**
    The common shape of success, failure and abort: operation `op` goes with
    all it holds, reader `r` becomes `n`, at most one job and one publication
    are added.
  */
  function EndOp(m: Room, r: nat, op: nat, n: Native, ng: nat, js: seq<Job>, ps: seq<Publication>): Room
    requires r < |m.f.natives|
  {
    Room(Unreserve(m.b, op).0,
         m.f.(natives := m.f.natives[r := n], nextGeneration := ng,
              pending := m.f.pending - {op}, active := Less(m.f.active),
              payloads := m.f.payloads - {op}, pumps := m.f.pumps - {op},
              jobs := m.f.jobs + js, published := m.f.published + ps))
  }

  /** `n` settles the current generation, or takes a new one over. */
  ghost predicate Settles(f: ReaderState, r: nat, n: Native, ng: nat)
    requires r < |f.natives|
  {
    && n.ready.Done? && !n.terminalDispatched
    && ((n.generation == f.natives[r].generation && ng == f.nextGeneration)
        || (n.generation == f.nextGeneration && ng == f.nextGeneration + 1))
  }

  ghost predicate AllowedTerminal(p: Phase, r: nat, n: Native, j: Job) {
    && j.Dispatch? && IsTerminal(j.kind) && j.reader == r && j.generation == n.generation
    && (j.kind.Load? ==> p == Complete(r, j.total) && j.loaded == j.total)
    && (j.kind.Error? ==>
          && n.error.Some? && j.loaded == 0
          && (p.Quiet? || ((p.Begun? || p.Complete?) && p.who == r && p.total == j.total)))
  }

  /** At most one job, a terminal event of `n`'s generation that the trace allows. */
  ghost predicate GoodTerminal(log: seq<Event>, r: nat, n: Native, js: seq<Job>) {
    |js| <= 1 && (js != [] ==> AllowedTerminal(PhaseOf(log, n.generation), r, n, js[0]))
  }

  ghost predicate GoodPublication(f: ReaderState, g: nat, ps: seq<Publication>) {
    && |ps| <= 1
    && (ps != [] ==>
          && ps[0].generation == g && PublicationOk(f, ps[0])
          && forall i :: 0 <= i < |f.published| ==> f.published[i].generation != g)
  }

  lemma AppendedViews(m: Room, m': Room, js: seq<Job>, x: nat, g: nat)
    requires |js| <= 1 && (js != [] ==> js[0].Dispatch? && IsTerminal(js[0].kind))
    requires m'.f.jobs == m.f.jobs + js
    ensures PumpsOf(m', x) == PumpsOf(m, x)
    ensures TermsOf(m', g) == TermsOf(m, g) + (if js != [] && js[0].generation == g then js else [])
    ensures EndsOf(m', g) == EndsOf(m, g)
  {
    if js == [] {
      assert m.f.jobs + js == m.f.jobs;
    } else {
      assert js == [js[0]];
      PickedAppend(m.f.jobs, js[0], PumpKey, x + 1);
      PickedAppend(m.f.jobs, js[0], TermKey, g + 1);
      PickedAppend(m.f.jobs, js[0], EndKey, g + 1);
    }
  }

  /** The operation's entries go, the counter follows. */
  lemma EndedBasics(f: ReaderState, f': ReaderState, r: nat, op: nat, n: Native, ng: nat)
    requires Basics(f) && op in f.pending && r < |f.natives| && Settles(f, r, n, ng)
    requires forall q :: 0 <= q < |f.natives| ==> f.natives[q].generation < f.nextGeneration
    requires f'.pending == f.pending - {op} && f'.payloads == f.payloads - {op} && f'.active == Less(f.active)
    requires f'.natives == f.natives[r := n] && f'.nextGeneration == ng
    ensures Basics(f')
  {
    assert f'.pending.Keys == f.pending.Keys - {op};
    assert f'.payloads.Keys == f.payloads.Keys - {op};
  }

  lemma EndedAlone(f: ReaderState, r: nat, op: nat)
    requires Basics(f) && op in f.pending && f.pending[op].reader == r
    ensures !HasOp(f.pending - {op}, r)
    ensures forall x :: x in f.pending && f.pending[x].reader == r ==> x == op
  {
  }

  lemma SettledOwn(f: ReaderState, r: nat, n: Native, ng: nat)
    requires r < |f.natives| && Settles(f, r, n, ng) && 0 < f.nextGeneration
    requires OwnGeneration(f, r, f.natives[r].generation) && OwnGeneration(f, r, f.nextGeneration)
    ensures OwnGeneration(f, r, n.generation)
  {
  }

  lemma EndOpBasics(m: Room, batch: seq<ChunkCompletion>, busy: Option<nat>, r: nat, op: nat, n: Native,
                    ng: nat, js: seq<Job>, ps: seq<Publication>)
    requires Live(m, batch, busy) && op in m.f.pending && m.f.pending[op].reader == r && r < |m.f.natives|
    requires Settles(m.f, r, n, ng)
    ensures Basics(EndOp(m, r, op, n, ng, js, ps).f)
    ensures !HasOp(m.f.pending - {op}, r)
    ensures OwnGeneration(m.f, r, n.generation) && OwnOnly(m.f, EndOp(m, r, op, n, ng, js, ps).f, r, op)
  {
    hide Live, OpOk, ReaderOk, Basics;
    LiveBooks(m, batch, busy);
    LoadingHas(m, batch, busy, r, op);
    FreshGeneration(m, batch, busy, r);
    EndedBasics(m.f, EndOp(m, r, op, n, ng, js, ps).f, r, op, n, ng);
    EndedAlone(m.f, r, op);
    SettledOwn(m.f, r, n, ng);
  }

  lemma EndOpOthers(m: Room, batch: seq<ChunkCompletion>, r: nat, op: nat, n: Native,
                    ng: nat, js: seq<Job>, ps: seq<Publication>)
    requires Valid(m.b) && r < |m.f.natives|
    requires |js| <= 1 && (js != [] ==> js[0].Dispatch? && IsTerminal(js[0].kind))
    ensures OtherOps(m, batch, EndOp(m, r, op, n, ng, js, ps), batch, op)
  {
    UnreserveKeeps(m.b, op);
    var m' := EndOp(m, r, op, n, ng, js, ps);
    forall x ensures PumpsOf(m', x) == PumpsOf(m, x) {
      AppendedViews(m, m', js, x, 0);
    }
  }

  lemma EndOpDelta(m: Room, batch: seq<ChunkCompletion>, r: nat, op: nat, n: Native,
                   ng: nat, js: seq<Job>, ps: seq<Publication>)
    requires Valid(m.b) && r < |m.f.natives| && op in m.f.pending && Settles(m.f, r, n, ng)
    requires GoodTerminal(m.f.log, r, n, js) && |ps| <= 1 && (ps != [] ==> ps[0].generation == n.generation)
    ensures Delta(m, batch, EndOp(m, r, op, n, ng, js, ps), batch, r, op, n.generation)
  {
    var m' := EndOp(m, r, op, n, ng, js, ps);
    UnreserveKeeps(m.b, op);
    EndOpOthers(m, batch, r, op, n, ng, js, ps);
    forall h
      ensures h != n.generation ==> TermsOf(m', h) == TermsOf(m, h)
      ensures EndsOf(m', h) == EndsOf(m, h)
    {
      AppendedViews(m, m', js, 0, h);
    }
    if ps == [] {
      assert m.f.published + ps == m.f.published;
    } else {
      assert ps == [ps[0]];
    }
  }

  lemma EndOpReader(m: Room, r: nat, op: nat, n: Native, ng: nat, js: seq<Job>, ps: seq<Publication>)
    requires r < |m.f.natives| && Settles(m.f, r, n, ng) && 0 < n.generation < ng
    requires TermsOf(m, n.generation) == [] && EndsOf(m, n.generation) == []
    requires GoodTerminal(m.f.log, r, n, js) && !HasOp(m.f.pending - {op}, r)
    ensures ReaderOk(EndOp(m, r, op, n, ng, js, ps), r)
  {
    AppendedViews(m, EndOp(m, r, op, n, ng, js, ps), js, 0, n.generation);
  }

  lemma EndOpPublished(f: ReaderState, f': ReaderState, g: nat, ps: seq<Publication>)
    requires PublishedOk(f) && GoodPublication(f, g, ps)
    requires f'.published == f.published + ps && f'.asked == f.asked && f'.log == f.log
    ensures PublishedOk(f')
  {
    forall i | 0 <= i < |f'.published|
      ensures PublicationOk(f', f'.published[i])
    {
      if i < |f.published| {
        assert PublicationOk(f, f.published[i]);
      }
    }
  }

  /** What is left of an ended operation can do nothing any more. */
  lemma EndedOp(m: Room, batch: seq<ChunkCompletion>, busy: Option<nat>, r: nat, op: nat, n: Native,
                ng: nat, js: seq<Job>, ps: seq<Publication>)
    requires Live(m, batch, busy) && op in m.f.pending && m.f.pending[op].reader == r && r < |m.f.natives|
    requires Settles(m.f, r, n, ng) && GoodTerminal(m.f.log, r, n, js)
    requires n.generation == m.f.natives[r].generation ==> busy == Some(op)
    ensures OpLocal(EndOp(m, r, op, n, ng, js, ps), batch, busy, op)
  {
    var m' := EndOp(m, r, op, n, ng, js, ps);
    LoadingHas(m, batch, busy, r, op);
    assert RootOk(m, op);
    AppendedViews(m, m', js, op, 0);
    UnreserveKeeps(m.b, op);
  }

  /** The reader whose operation ended, its generation and its publication. */
  lemma EndOpOwner(m: Room, batch: seq<ChunkCompletion>, busy: Option<nat>, r: nat, op: nat, n: Native,
                   ng: nat, js: seq<Job>, ps: seq<Publication>)
    requires Live(m, batch, busy) && op in m.f.pending && m.f.pending[op].reader == r && r < |m.f.natives|
    requires Settles(m.f, r, n, ng) && GoodTerminal(m.f.log, r, n, js) && GoodPublication(m.f, n.generation, ps)
    ensures Valid(m.b) && |ps| <= 1 && (ps != [] ==> ps[0].generation == n.generation)
    ensures var m' := EndOp(m, r, op, n, ng, js, ps);
      Valid(m'.b) && !m'.b.shutdown && PublishedOk(m'.f) && ReaderOk(m', r) && GenLocal(m', n.generation)
  {
    var m' := EndOp(m, r, op, n, ng, js, ps);
    LoadingHas(m, batch, busy, r, op);
    EndOpBasics(m, batch, busy, r, op, n, ng, js, ps);
    UnreserveKeeps(m.b, op);
    EndOpPublished(m.f, m'.f, n.generation, ps);
    assert GenLocal(m, n.generation);
    EndOpReader(m, r, op, n, ng, js, ps);
    AppendedViews(m, m', js, 0, n.generation);
  }

  /** Ending an operation, in whichever way, keeps everything. */
  lemma EndOpKeeps(m: Room, batch: seq<ChunkCompletion>, busy: Option<nat>, r: nat, op: nat, n: Native,
                   ng: nat, js: seq<Job>, ps: seq<Publication>)
    requires Live(m, batch, busy) && op in m.f.pending && m.f.pending[op].reader == r && r < |m.f.natives|
    requires Settles(m.f, r, n, ng) && GoodTerminal(m.f.log, r, n, js) && GoodPublication(m.f, n.generation, ps)
    requires n.generation == m.f.natives[r].generation ==> busy == Some(op)
    ensures Live(EndOp(m, r, op, n, ng, js, ps), batch, busy)
  {
    hide Live, OpLocal, ReaderOk, Basics, PublishedOk, Delta, Valid, Settles, GoodTerminal, GoodPublication, EndOp;
    var m' := EndOp(m, r, op, n, ng, js, ps);
    EndOpOwner(m, batch, busy, r, op, n, ng, js, ps);
    EndOpBasics(m, batch, busy, r, op, n, ng, js, ps);
    EndOpDelta(m, batch, r, op, n, ng, js, ps);
    EndedOp(m, batch, busy, r, op, n, ng, js, ps);
    Moved(m, batch, busy, m', batch, busy, r, op, n.generation);
  }

  // ---------------------------------------------------------------- beginning

  /** No reader's generation, and nobody's trace, reaches `nextGeneration`. */
  lemma FreshGeneration(m: Room, batch: seq<ChunkCompletion>, busy: Option<nat>, r: nat)
    requires Live(m, batch, busy)
    ensures OwnGeneration(m.f, r, m.f.nextGeneration)
    ensures forall q :: 0 <= q < |m.f.natives| ==> m.f.natives[q].generation < m.f.nextGeneration
    ensures GenLocal(m, m.f.nextGeneration)
    ensures forall i :: 0 <= i < |m.f.published| ==> m.f.published[i].generation != m.f.nextGeneration
  {
    forall q | 0 <= q < |m.f.natives| ensures m.f.natives[q].generation < m.f.nextGeneration {
      assert ReaderOk(m, q);
    }
    assert GenLocal(m, m.f.nextGeneration);
  }

  /** An idle reader takes a new generation and an error is queued for it. */
  function Restarted(m: Room, r: nat, total: nat, problem: Problem): Room
    requires r < |m.f.natives|
  {
    var g := m.f.nextGeneration;
    m.(f := m.f.(natives := m.f.natives[r := Native(Done, None, Some(problem), g, false, total, 0)],
                 nextGeneration := g + 1, jobs := m.f.jobs + [Dispatch(r, g, Error, 0, total)]))
  }

  lemma RestartedOthers(m: Room, batch: seq<ChunkCompletion>, r: nat, total: nat, problem: Problem)
    requires r < |m.f.natives|
    ensures Delta(m, batch, Restarted(m, r, total, problem), batch, r, 0, m.f.nextGeneration)
  {
    var j := Dispatch(r, m.f.nextGeneration, Error, 0, total);
    var m' := Restarted(m, r, total, problem);
    assert OtherOps(m, batch, m', batch, 0) by {
      forall x ensures PumpsOf(m', x) == PumpsOf(m, x) {
        AppendedViews(m, m', [j], x, 0);
      }
    }
    assert OtherGens(m, m', m.f.nextGeneration) by {
      forall h | h != m.f.nextGeneration
        ensures TermsOf(m', h) == TermsOf(m, h) && EndsOf(m', h) == EndsOf(m, h)
      {
        AppendedViews(m, m', [j], 0, h);
      }
    }
  }

  lemma IdleOwnsNothing(m: Room, batch: seq<ChunkCompletion>, busy: Option<nat>, r: nat)
    requires Live(m, batch, busy) && r < |m.f.natives| && !m.f.natives[r].ready.Loading?
    ensures forall x :: x in m.f.pending ==> m.f.pending[x].reader != r
    ensures 0 !in m.f.pending
  {
    assert ReaderOk(m, r);
    assert OpLocal(m, batch, busy, 0);
    forall x | x in m.f.pending ensures m.f.pending[x].reader != r {
      assert !HasOp(m.f.pending, r);
    }
  }

  lemma RestartedReader(m: Room, r: nat, total: nat, problem: Problem)
    requires r < |m.f.natives| && GenLocal(m, m.f.nextGeneration) && 0 < m.f.nextGeneration
    requires forall x :: x in m.f.pending ==> m.f.pending[x].reader != r
    ensures ReaderOk(Restarted(m, r, total, problem), r)
    ensures GenLocal(Restarted(m, r, total, problem), m.f.nextGeneration)
  {
    var m' := Restarted(m, r, total, problem);
    var g := m.f.nextGeneration;
    AppendedViews(m, m', [Dispatch(r, g, Error, 0, total)], 0, g);
    assert TermsOf(m', g) == [Dispatch(r, g, Error, 0, total)];
    assert TermGood(m'.f, r, g, Dispatch(r, g, Error, 0, total));
  }

  lemma RestartedBooks(f: ReaderState, f': ReaderState, r: nat)
    requires Basics(f) && PublishedOk(f) && r < |f.natives| == |f'.natives|
    requires forall q :: 0 <= q < |f.natives| ==> f.natives[q].generation < f.nextGeneration
    requires f' == f.(natives := f.natives[r := f'.natives[r]], nextGeneration := f.nextGeneration + 1, jobs := f'.jobs)
    requires f'.natives[r].generation == f.nextGeneration
    ensures Basics(f') && PublishedOk(f')
  {
    hide PhaseOf, FinalAt;
    forall i | 0 <= i < |f'.published| ensures PublicationOk(f', f'.published[i]) {
      assert PublicationOk(f, f.published[i]);
    }
  }

  lemma RestartKeeps(m: Room, batch: seq<ChunkCompletion>, busy: Option<nat>, r: nat, total: nat, problem: Problem)
    requires Live(m, batch, busy) && r < |m.f.natives| && !m.f.natives[r].ready.Loading?
    ensures Live(Restarted(m, r, total, problem), batch, busy)
  {
    hide Live, OpLocal, ReaderOk, PublishedOk, Delta, Valid;
    var m' := Restarted(m, r, total, problem);
    LiveBooks(m, batch, busy);
    FreshGeneration(m, batch, busy, r);
    IdleOwnsNothing(m, batch, busy, r);
    RestartedOthers(m, batch, r, total, problem);
    RestartedReader(m, r, total, problem);
    RestartedZero(m, batch, busy, r, total, problem);
    RestartedBooks(m.f, m'.f, r);
    Moved(m, batch, busy, m', batch, busy, r, 0, m.f.nextGeneration);
  }

  lemma RestartedZero(m: Room, batch: seq<ChunkCompletion>, busy: Option<nat>, r: nat, total: nat, problem: Problem)
    requires Live(m, batch, busy) && r < |m.f.natives| && 0 !in m.f.pending
    ensures OpLocal(Restarted(m, r, total, problem), batch, busy, 0)
  {
    assert OpLocal(m, batch, busy, 0);
    AppendedViews(m, Restarted(m, r, total, problem), [Dispatch(r, m.f.nextGeneration, Error, 0, total)], 0, 0);
  }

  lemma StartedOthers(m: Room, batch: seq<ChunkCompletion>, b': BridgeState, r: nat, op: nat, blob: seq<Byte>, kind: Kind)
    requires r < |m.f.natives| && m.b.next <= b'.next && op == m.b.next && b'.tokens == m.b.tokens + {op}
    requires forall x :: x != op ==> At(b', x) == At(m.b, x)
    ensures var g := m.f.nextGeneration;
      var m1 := Room(b', m.f.(nextGeneration := g + 1, active := m.f.active + 1));
      Delta(m, batch, Started(m1, r, op, g, blob, kind), batch, r, op, g)
  {
    var g := m.f.nextGeneration;
    var t := Task(op, g, blob, 0, Min(m.f.chunkSize, |blob|));
    forall x ensures Picked(m.f.tasks + [t], TaskOp, x) == Picked(m.f.tasks, TaskOp, x) + (if x == op then [t] else []) {
      PickedAppend(m.f.tasks, t, TaskOp, x);
    }
  }

  lemma StartedPump(m: Room, b': BridgeState, r: nat, op: nat, blob: seq<Byte>, kind: Kind)
    requires r < |m.f.natives| && ChunkInRange(m.f.chunkSize) && PhaseOf(m.f.log, m.f.nextGeneration) == Quiet
    ensures var g := m.f.nextGeneration;
      var m' := Started(Room(b', m.f.(nextGeneration := g + 1, active := m.f.active + 1)), r, op, g, blob, kind);
      PumpGood(m'.f, r, g, m'.f.pumps[op])
  {
  }

  lemma StartedToken(m: Room, batch: seq<ChunkCompletion>, op: nat, t: Task)
    requires op in m.f.pending && RootOk(m, op) && StoredOk(m, op) && m.f.pumps[op].loaded == 0
    requires TasksOf(m, op) == [t] && PumpsOf(m, op) == [] && Of(batch, op) == [] && At(m.b, op).readerQ == []
    requires t == NextTask(op, m.f.pending[op].generation, m.f.payloads[op], m.f.pumps[op])
    ensures OpLocal(m, batch, None, op)
  {
    hide PhaseOf;
  }

  lemma StartedOwn(m: Room, batch: seq<ChunkCompletion>, b': BridgeState, r: nat, op: nat, blob: seq<Byte>, kind: Kind)
    requires r < |m.f.natives| && 0 < op < b'.next && At(b', op) == FRESH_VIEW && ChunkInRange(m.f.chunkSize)
    requires TasksOf(m, op) == [] && PumpsOf(m, op) == [] && Of(batch, op) == []
    requires PhaseOf(m.f.log, m.f.nextGeneration) == Quiet && 0 < m.f.nextGeneration
    ensures var g := m.f.nextGeneration;
      var m1 := Room(b', m.f.(nextGeneration := g + 1, active := m.f.active + 1));
      OpLocal(Started(m1, r, op, g, blob, kind), batch, None, op)
  {
    hide PhaseOf;
    var g := m.f.nextGeneration;
    var m1 := Room(b', m.f.(nextGeneration := g + 1, active := m.f.active + 1));
    var m' := Started(m1, r, op, g, blob, kind);
    var t := Task(op, g, blob, 0, Min(m.f.chunkSize, |blob|));
    PickedAppend(m.f.tasks, t, TaskOp, op);
    assert TasksOf(m', op) == [t];
    StartedPump(m, b', r, op, blob, kind);
    assert RootOk(m', op);
    StartedToken(m', batch, op, t);
  }

  lemma OpLocalBusy(m: Room, batch: seq<ChunkCompletion>, busy: Option<nat>, op: nat)
    requires OpLocal(m, batch, None, op) && busy != Some(op)
    ensures OpLocal(m, batch, busy, op)
  {
  }

  lemma StartedBasics(f: ReaderState, f': ReaderState, r: nat, op: nat, blob: seq<Byte>, n: Native)
    requires Basics(f) && op !in f.pending && r < |f.natives|
    requires forall x :: x in f.pending ==> f.pending[x].reader != r
    requires forall q :: 0 <= q < |f.natives| ==> f.natives[q].generation < f.nextGeneration
    requires f'.pending == f.pending[op := PendingOp(r, f.nextGeneration)] && f'.active == f.active + 1
    requires f'.payloads == f.payloads[op := blob] && f'.nextGeneration == f.nextGeneration + 1
    requires f'.natives == f.natives[r := n] && n.generation == f.nextGeneration
    ensures Basics(f')
  {
    assert f'.pending.Keys == f.pending.Keys + {op};
    assert f'.payloads.Keys == f.payloads.Keys + {op};
  }

  lemma StartedReader(m: Room, b': BridgeState, r: nat, op: nat, blob: seq<Byte>, kind: Kind)
    requires r < |m.f.natives| && GenLocal(m, m.f.nextGeneration) && 0 < m.f.nextGeneration && PublishedOk(m.f)
    ensures var g := m.f.nextGeneration;
      var m1 := Room(b', m.f.(nextGeneration := g + 1, active := m.f.active + 1));
      var m' := Started(m1, r, op, g, blob, kind);
      ReaderOk(m', r) && PublishedOk(m'.f) && GenLocal(m', g)
  {
    var g := m.f.nextGeneration;
    var m1 := Room(b', m.f.(nextGeneration := g + 1, active := m.f.active + 1));
    var m' := Started(m1, r, op, g, blob, kind);
    SameJobs(m, m');
    assert m'.f.pending[op].reader == r;
  }

  /** Nothing is known of the id that the bridge hands out next. */
  lemma NextUnknown(m: Room, batch: seq<ChunkCompletion>, busy: Option<nat>)
    requires Live(m, batch, busy)
    ensures var op := m.b.next;
      0 < op && op !in m.f.pending && TasksOf(m, op) == [] && PumpsOf(m, op) == [] && Of(batch, op) == []
  {
    assert OpLocal(m, batch, busy, m.b.next);
  }

  /** A read that got its slot and its task is live, with its one request out. */
  lemma StartedKeeps(m: Room, batch: seq<ChunkCompletion>, busy: Option<nat>, b': BridgeState, r: nat, blob: seq<Byte>, kind: Kind)
    requires Live(m, batch, busy) && r < |m.f.natives| && !m.f.natives[r].ready.Loading?
    requires ChunkInRange(m.f.chunkSize) && busy != Some(m.b.next)
    requires Valid(b') && !b'.shutdown && m.b.next < b'.next && b'.tokens == m.b.tokens + {m.b.next}
    requires At(b', m.b.next) == FRESH_VIEW
    requires forall x :: x != m.b.next ==> At(b', x) == At(m.b, x)
    ensures var g := m.f.nextGeneration;
      var m1 := Room(b', m.f.(nextGeneration := g + 1, active := m.f.active + 1));
      Live(Started(m1, r, m.b.next, g, blob, kind), batch, busy)
  {
    hide Live, OpLocal, ReaderOk, PublishedOk, Delta, Valid, PumpGood;
    var op, g := m.b.next, m.f.nextGeneration;
    var m1 := Room(b', m.f.(nextGeneration := g + 1, active := m.f.active + 1));
    var m' := Started(m1, r, op, g, blob, kind);
    LiveBooks(m, batch, busy);
    NextUnknown(m, batch, busy);
    FreshGeneration(m, batch, busy, r);
    IdleOwnsNothing(m, batch, busy, r);
    StartedOthers(m, batch, b', r, op, blob, kind);
    StartedOwn(m, batch, b', r, op, blob, kind);
    OpLocalBusy(m', batch, busy, op);
    StartedBasics(m.f, m'.f, r, op, blob, m'.f.natives[r]);
    StartedReader(m, b', r, op, blob, kind);
    Moved(m, batch, busy, m', batch, busy, r, op, g);
  }
}
