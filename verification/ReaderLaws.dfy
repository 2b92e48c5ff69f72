/**
  What every FileReader step keeps, stated per operation, per reader and per
  generation. `busy` names the operation whose pump job is running, if any:
  its one work token is then with the running job.
*/
module ReaderLaws {
  import opened Common
  import opened Bridge
  import opened Readers

  // ------------------------------------------------------- traces of events

  /**
    How far the event trace of one generation has come. `who` is the reader it
    fires on; `last` and `at` are the previous progress event. `Broken` is
    where every forbidden order leads.
  */
  datatype Phase =
    | Quiet
    | Begun(who: nat, total: nat, last: nat, at: int)
    | Complete(who: nat, total: nat)
    | Ended(who: nat, loaded: nat, total: nat)
    | Over
    | Broken

  function Next(p: Phase, e: Event): Phase {
    match e.kind
    case LoadStart => if p.Quiet? && e.loaded == 0 then Begun(e.reader, e.total, 0, I64_MIN) else Broken
    case Progress =>
      if !p.Begun? || p.who != e.reader || p.total != e.total then Broken
      else if e.loaded == p.total then Complete(p.who, p.total)
      else if p.last < e.loaded < p.total && (p.at == I64_MIN || p.at + PROGRESS_MS <= e.at)
      then Begun(p.who, p.total, e.loaded, e.at)
      else Broken
    case Load => if p == Complete(e.reader, e.total) && e.loaded == e.total
                 then Ended(e.reader, e.loaded, e.total) else Broken
    case Error =>
      if e.loaded == 0 && (p.Quiet? || ((p.Begun? || p.Complete?) && p.who == e.reader && p.total == e.total))
      then Ended(e.reader, 0, e.total) else Broken
    case Abort => if p.Quiet? then Ended(e.reader, e.loaded, e.total) else Broken
    case LoadEnd => if p == Ended(e.reader, e.loaded, e.total) then Over else Broken
  }

  /** The phase that the events of generation `g` lead to. */
  function PhaseOf(log: seq<Event>, g: nat): Phase {
    if log == [] then Quiet
    else
      var n := |log| - 1;
      if log[n].generation == g then Next(PhaseOf(log[..n], g), log[n]) else PhaseOf(log[..n], g)
  }

  lemma PhaseAppend(log: seq<Event>, e: Event, g: nat)
    ensures PhaseOf(log + [e], g) == if e.generation == g then Next(PhaseOf(log, g), e) else PhaseOf(log, g)
  {
    assert (log + [e])[..|log|] == log;
  }

  function EventGen(e: Event): nat {
    e.generation
  }

  /** The events of generation `g`, in order. */
  function EventsOf(log: seq<Event>, g: nat): seq<Event> {
    Picked(log, EventGen, g)
  }

  predicate PastFinal(p: Phase) {
    p.Complete? || p.Ended? || p.Over?
  }

  // --------------------------------------------------------- job and task views

  function TaskOp(t: Task): nat {
    t.op
  }

  function PumpKey(j: Job): nat {
    if j.Pump? then j.op + 1 else 0
  }

  function TermKey(j: Job): nat {
    if j.Dispatch? && IsTerminal(j.kind) then j.generation + 1 else 0
  }

  function EndKey(j: Job): nat {
    if j.Dispatch? && j.kind.LoadEnd? then j.generation + 1 else 0
  }

  // Keys are shifted by one: 0 stands for "no such job".

  function TasksOf(m: Room, op: nat): seq<Task> {
    Picked(m.f.tasks, TaskOp, op)
  }

  function PumpsOf(m: Room, op: nat): seq<Job> {
    Picked(m.f.jobs, PumpKey, op + 1)
  }

  function TermsOf(m: Room, g: nat): seq<Job> {
    Picked(m.f.jobs, TermKey, g + 1)
  }

  function EndsOf(m: Room, g: nat): seq<Job> {
    Picked(m.f.jobs, EndKey, g + 1)
  }

  // ---------------------------------------------------------------- invariant

  /** The one request a live operation may have outstanding. */
  function NextTask(op: nat, g: nat, blob: seq<Byte>, s: PumpState): Task
    requires s.loaded <= |blob|
  {
    Task(op, g, blob, s.loaded, Min(s.chunkSize, |blob| - s.loaded))
  }

  /** Packaging state `s` of generation `g` against the reader, the blob and the trace. */
  ghost predicate PumpGood(f: ReaderState, r: nat, g: nat, s: PumpState) {
    && r < |f.natives| && g in f.asked
    && var blob := f.asked[g];
    && ChunkInRange(s.chunkSize)
    && s.total == |blob| == f.natives[r].total
    && s.loaded == |s.buffered| == f.natives[r].loaded && s.buffered <= blob
    && !s.finalProgressSent
    && if s.loadstartSent
       then var p := PhaseOf(f.log, g);
         p.Begun? && p.who == r && p.total == s.total && p.last <= s.loaded && p.at == s.lastProgressAt
       else PhaseOf(f.log, g) == Quiet && s.loaded == 0 && s.lastProgressAt == I64_MIN
  }

  ghost predicate GoodChunk(blob: seq<Byte>, op: nat, g: nat, s: PumpState, chunk: ChunkKind)
    requires s.loaded <= |blob|
  {
    chunk.Failed? || chunk == Answer(NextTask(op, g, blob, s), None)
  }

  /** Requests of `op` with a worker, queued, drained, or in a pump job. */
  function Work(m: Room, batch: seq<ChunkCompletion>, op: nat): nat {
    |TasksOf(m, op)| + |At(m.b, op).readerQ| + |Of(batch, op)| + |PumpsOf(m, op)|
  }

  /** Reader, slot, root and payload of a live operation. */
  ghost predicate RootOk(m: Room, op: nat)
    requires op in m.f.pending
  {
    var PendingOp(r, g) := m.f.pending[op];
    var v := At(m.b, op);
    && 0 < op < m.b.next && 0 < g < m.f.nextGeneration
    && r < |m.f.natives| && m.f.natives[r].ready.Loading? && m.f.natives[r].generation == g
    && v.token && v.ordered && v.whole.None? && v.streamQ == [] && !v.live
    && op in m.f.payloads && g in m.f.asked && m.f.payloads[op] == m.f.asked[g]
    && m.f.natives[r].total == |m.f.asked[g]|
  }

  /** The stored packaging state goes with a request that is not in a job yet. */
  ghost predicate StoredOk(m: Room, op: nat)
    requires op in m.f.pending
  {
    && op in m.f.pumps
    && PumpGood(m.f, m.f.pending[op].reader, m.f.pending[op].generation, m.f.pumps[op])
  }

  ghost predicate TasksOk(m: Room, op: nat)
    requires op in m.f.pending
  {
    var g := m.f.pending[op].generation;
    forall t :: t in TasksOf(m, op) ==> StoredOk(m, op) && t == NextTask(op, g, m.f.asked[g], m.f.pumps[op])
  }

  ghost predicate ChunksOk(m: Room, op: nat, chunks: seq<ChunkCompletion>)
    requires op in m.f.pending
  {
    var g := m.f.pending[op].generation;
    forall c :: c in chunks ==>
      && c.op == op && c.generation == g
      && StoredOk(m, op) && GoodChunk(m.f.asked[g], op, g, m.f.pumps[op], c.kind)
  }

  ghost predicate PumpsOk(m: Room, op: nat)
    requires op in m.f.pending
  {
    var PendingOp(r, g) := m.f.pending[op];
    forall j :: j in PumpsOf(m, op) ==>
      && j.Pump? && j.reader == r && j.generation == g
      && PumpGood(m.f, r, g, j.state) && GoodChunk(m.f.asked[g], op, g, j.state, j.chunk)
  }

  ghost predicate OpOk(m: Room, batch: seq<ChunkCompletion>, busy: Option<nat>, op: nat)
    requires op in m.f.pending
  {
    && RootOk(m, op)
    && Work(m, batch, op) == (if busy == Some(op) then 0 else 1)
    && TasksOk(m, op) && ChunksOk(m, op, At(m.b, op).readerQ) && ChunksOk(m, op, Of(batch, op)) && PumpsOk(m, op)
  }

  /** Pump jobs left over from an operation that is gone belong to replaced generations. */
  ghost predicate PumpsStale(m: Room, op: nat) {
    forall j :: j in PumpsOf(m, op) ==>
      && j.Pump? && j.reader < |m.f.natives| && j.generation < m.f.nextGeneration
      && m.f.natives[j.reader].generation != j.generation
  }

  ghost predicate OpLocal(m: Room, batch: seq<ChunkCompletion>, busy: Option<nat>, op: nat) {
    if op in m.f.pending then OpOk(m, batch, busy, op)
    else
      && PumpsStale(m, op)
      && (op >= m.b.next || op in m.b.tokens ==> TasksOf(m, op) == [] && PumpsOf(m, op) == [] && Of(batch, op) == [])
  }

  /** A queued terminal event that may still fire. */
  ghost predicate TermGood(f: ReaderState, r: nat, g: nat, j: Job)
    requires r < |f.natives|
  {
    var p := PhaseOf(f.log, g);
    && j.Dispatch? && j.reader == r && j.generation == g
    && (j.kind.Load? ==> p == Complete(r, j.total) && j.loaded == j.total)
    && (j.kind.Error? ==>
          && f.natives[r].error.Some? && j.loaded == 0
          && (p.Quiet? || ((p.Begun? || p.Complete?) && p.who == r && p.total == j.total)))
  }

  ghost predicate ReaderOk(m: Room, r: nat)
    requires r < |m.f.natives|
  {
    var n := m.f.natives[r];
    var g := n.generation;
    && g < m.f.nextGeneration
    && (n.ready.Empty? <==> g == 0) && (n.ready.Empty? ==> !n.terminalDispatched)
    && (n.ready.Loading? <==> HasOp(m.f.pending, r))
    && (n.ready.Loading? ==> !n.terminalDispatched && TermsOf(m, g) == [] && EndsOf(m, g) == []
                             && forall i :: 0 <= i < |m.f.published| ==> m.f.published[i].generation != g)
    && (n.ready.Done? && !n.terminalDispatched ==>
          EndsOf(m, g) == [] && |TermsOf(m, g)| <= 1 && forall j :: j in TermsOf(m, g) ==> TermGood(m.f, r, g, j))
    && (n.ready.Done? && n.terminalDispatched ==>
          && TermsOf(m, g) == [] && |EndsOf(m, g)| <= 1
          && forall j :: j in EndsOf(m, g) ==> PhaseOf(m.f.log, g) == Ended(r, j.loaded, j.total) && j.reader == r)
  }

  /** No trace is broken; a generation not handed out yet is untouched. */
  ghost predicate GenLocal(m: Room, g: nat) {
    && !PhaseOf(m.f.log, g).Broken?
    && (g >= m.f.nextGeneration ==>
          TermsOf(m, g) == [] && EndsOf(m, g) == [] && PhaseOf(m.f.log, g) == Quiet && g !in m.f.asked)
  }

  /** One operation per loading reader, one payload per operation; the counter mirrors the table. */
  ghost predicate Basics(f: ReaderState) {
    && f.active == |f.pending| && f.payloads.Keys == f.pending.Keys
    && 0 < f.nextGeneration
    && (forall x, y :: x in f.pending && y in f.pending && f.pending[x].reader == f.pending[y].reader ==> x == y)
    && (forall q, r :: 0 <= q < r < |f.natives| && f.natives[q].generation == f.natives[r].generation ==>
          f.natives[r].generation == 0)
  }

  /** After the first `n` events `progress(total)` is the last thing heard of generation `g`. */
  predicate FinalAt(log: seq<Event>, g: nat, n: nat, total: nat) {
    n <= |log| && PhaseOf(log[..n], g).Complete? && PhaseOf(log[..n], g).total == total
  }

  /** The whole blob that was asked for, published right after `progress(total)`. */
  predicate PublicationOk(f: ReaderState, p: Publication) {
    && p.generation in f.asked && p.result.bytes == f.asked[p.generation]
    && FinalAt(f.log, p.generation, p.at, |f.asked[p.generation]|)
  }

  ghost predicate PublishedOk(f: ReaderState) {
    && (forall i :: 0 <= i < |f.published| ==> PublicationOk(f, f.published[i]))
    && (forall i, j :: 0 <= i < j < |f.published| ==> f.published[i].generation != f.published[j].generation)
  }

  ghost predicate Live(m: Room, batch: seq<ChunkCompletion>, busy: Option<nat>) {
    && Valid(m.b) && !m.b.shutdown
    && Basics(m.f)
    && (forall op :: OpLocal(m, batch, busy, op))
    && (forall r :: 0 <= r < |m.f.natives| ==> ReaderOk(m, r))
    && (forall g :: GenLocal(m, g))
    && PublishedOk(m.f)
  }

  // ------------------------------------------------------------------- frames

  /** Nothing that operation `x` rests on differs. */
  ghost predicate SameOp(m: Room, batch: seq<ChunkCompletion>, m': Room, batch': seq<ChunkCompletion>, x: nat) {
    && (x in m.f.pending <==> x in m'.f.pending)
    && TasksOf(m', x) == TasksOf(m, x) && PumpsOf(m', x) == PumpsOf(m, x) && Of(batch', x) == Of(batch, x)
    && (x in m.f.pending ==>
          && m'.f.pending[x] == m.f.pending[x]
          && At(m'.b, x) == At(m.b, x)
          && (x in m.f.payloads ==> x in m'.f.payloads && m'.f.payloads[x] == m.f.payloads[x])
          && (x in m.f.pumps ==> x in m'.f.pumps && m'.f.pumps[x] == m.f.pumps[x])
          && SameTrace(m, m', m.f.pending[x].reader))
  }

  /** Reader `q` itself, the blob it reads and its trace. */
  ghost predicate SameTrace(m: Room, m': Room, q: nat) {
    q < |m.f.natives| ==>
      && q < |m'.f.natives| && m'.f.natives[q] == m.f.natives[q]
      && var g := m.f.natives[q].generation;
         && PhaseOf(m'.f.log, g) == PhaseOf(m.f.log, g)
         && (g in m.f.asked ==> g in m'.f.asked && m'.f.asked[g] == m.f.asked[g])
  }

  ghost predicate SameReader(m: Room, m': Room, q: nat) {
    && SameTrace(m, m', q)
    && (q < |m.f.natives| ==>
          var g := m.f.natives[q].generation;
          && TermsOf(m', g) == TermsOf(m, g) && EndsOf(m', g) == EndsOf(m, g)
          && ((forall i :: 0 <= i < |m.f.published| ==> m.f.published[i].generation != g) ==>
                forall i :: 0 <= i < |m'.f.published| ==> m'.f.published[i].generation != g))
  }

  /** Ids and generations only grow; a replaced generation never comes back. */
  ghost predicate Later(m: Room, m': Room) {
    && m.b.next <= m'.b.next && m.f.nextGeneration <= m'.f.nextGeneration
    && |m.f.natives| <= |m'.f.natives|
    && (forall x :: x in m'.b.tokens ==> x in m.b.tokens || m.b.next <= x)
    && forall q :: 0 <= q < |m.f.natives| ==>
         || m'.f.natives[q].generation == m.f.natives[q].generation
         || m.f.nextGeneration <= m'.f.natives[q].generation
  }

  lemma PumpFrame(m: Room, m': Room, r: nat, g: nat, s: PumpState)
    requires PumpGood(m.f, r, g, s) && m.f.natives[r].generation == g && SameTrace(m, m', r)
    ensures PumpGood(m'.f, r, g, s)
  {
  }

  lemma OpFrame(m: Room, batch: seq<ChunkCompletion>, busy: Option<nat>,
                m': Room, batch': seq<ChunkCompletion>, busy': Option<nat>, x: nat)
    requires OpLocal(m, batch, busy, x) && SameOp(m, batch, m', batch', x) && Later(m, m')
    requires busy == Some(x) <==> busy' == Some(x)
    ensures OpLocal(m', batch', busy', x)
  {
    if x in m.f.pending {
      var PendingOp(r, g) := m.f.pending[x];
      if x in m.f.pumps && PumpGood(m.f, r, g, m.f.pumps[x]) {
        PumpFrame(m, m', r, g, m.f.pumps[x]);
      }
      forall j | j in PumpsOf(m, x) ensures PumpGood(m'.f, r, g, j.state) {
        PumpFrame(m, m', r, g, j.state);
      }
    }
  }

  lemma ReaderFrame(m: Room, m': Room, q: nat)
    requires q < |m.f.natives| && ReaderOk(m, q) && SameReader(m, m', q) && Later(m, m')
    requires HasOp(m.f.pending, q) <==> HasOp(m'.f.pending, q)
    ensures ReaderOk(m', q)
  {
  }

  /** Everything but reader `r` and its operation `op` (0: none) stays as it is. */
  ghost predicate Elsewhere(m: Room, batch: seq<ChunkCompletion>, m': Room, batch': seq<ChunkCompletion>, r: nat, op: nat) {
    && Later(m, m') && |m'.f.natives| == |m.f.natives| && r < |m.f.natives|
    && (forall x :: x != op ==> SameOp(m, batch, m', batch', x))
    && (forall q :: 0 <= q < |m.f.natives| && q != r ==> SameReader(m, m', q))
    && (op in m.f.pending ==> m.f.pending[op].reader == r)
    && (op in m'.f.pending ==> m'.f.pending[op].reader == r)
  }

  lemma OwnersKept(p: map<nat, PendingOp>, p': map<nat, PendingOp>, r: nat, op: nat, q: nat)
    requires q != r
    requires forall x :: x != op ==> (x in p <==> x in p')
    requires forall x :: x != op && x in p ==> p'[x] == p[x]
    requires op in p ==> p[op].reader == r
    requires op in p' ==> p'[op].reader == r
    ensures HasOp(p, q) <==> HasOp(p', q)
  {
    if HasOp(p, q) {
      var x :| x in p && p[x].reader == q;
      assert x in p' && p'[x].reader == q;
    }
    if HasOp(p', q) {
      var x :| x in p' && p'[x].reader == q;
      assert x in p && p[x].reader == q;
    }
  }

  lemma ReaderElsewhere(m: Room, batch: seq<ChunkCompletion>, m': Room, batch': seq<ChunkCompletion>,
                        r: nat, op: nat, q: nat)
    requires Elsewhere(m, batch, m', batch', r, op) && q != r
    ensures HasOp(m.f.pending, q) <==> HasOp(m'.f.pending, q)
  {
    forall x | x != op
      ensures x in m.f.pending <==> x in m'.f.pending
      ensures x in m.f.pending ==> m'.f.pending[x] == m.f.pending[x]
    {
      assert SameOp(m, batch, m', batch', x);
    }
    OwnersKept(m.f.pending, m'.f.pending, r, op, q);
  }

  /** A step about reader `r` and operation `op` needs to look at these alone. */
  lemma Rebuild(m: Room, batch: seq<ChunkCompletion>, busy: Option<nat>,
                m': Room, batch': seq<ChunkCompletion>, busy': Option<nat>, r: nat, op: nat)
    requires Live(m, batch, busy) && Elsewhere(m, batch, m', batch', r, op)
    requires Valid(m'.b) && !m'.b.shutdown && Basics(m'.f) && PublishedOk(m'.f)
    requires forall x :: x != op ==> (busy == Some(x) <==> busy' == Some(x))
    requires OpLocal(m', batch', busy', op) && ReaderOk(m', r)
    requires forall g :: GenLocal(m', g)
    ensures Live(m', batch', busy')
  {
    forall x ensures OpLocal(m', batch', busy', x) {
      if x != op {
        OpFrame(m, batch, busy, m', batch', busy', x);
      }
    }
    forall q | 0 <= q < |m'.f.natives| ensures ReaderOk(m', q) {
      if q != r {
        ReaderElsewhere(m, batch, m', batch', r, op, q);
        ReaderFrame(m, m', q);
      }
    }
  }

  /** Another client moved the bridge at ids that are no reader's. */
  lemma OtherClientMoved(m: Room, b': BridgeState, batch: seq<ChunkCompletion>, busy: Option<nat>)
    requires Live(m, batch, busy)
    requires Valid(b') && !b'.shutdown && m.b.next <= b'.next
    requires forall x :: x in b'.tokens ==> x in m.b.tokens || m.b.next <= x
    requires forall x :: x in m.f.pending ==> At(b', x) == At(m.b, x)
    ensures Live(m.(b := b'), batch, busy)
  {
    var m' := m.(b := b');
    forall x ensures OpLocal(m', batch, busy, x) {
      assert OpLocal(m, batch, busy, x);
      OpFrame(m, batch, busy, m', batch, busy, x);
    }
    forall q | 0 <= q < |m'.f.natives| ensures ReaderOk(m', q) {
      ReaderFrame(m, m', q);
    }
    forall g ensures GenLocal(m', g) {
      assert GenLocal(m, g);
    }
  }
}
