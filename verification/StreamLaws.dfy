/**
  What every stream step keeps. The invariant is local: `Local(w, batch, op)`
  speaks of one operation id only, so a step that touches one id leaves all
  other ids to `Frame`.
*/
module StreamLaws {
  import opened Common
  import opened Bridge
  import opened Streams
  import Utf8

  // ------------------------------------------------------ per-operation views

  /** Outcomes settled so far for one stream, in settlement order. */
  function Outs(log: seq<Settlement>, op: nat): seq<Outcome> {
    if log == [] then []
    else
      var n := |log| - 1;
      Outs(log[..n], op) + (if log[n].op == op then [log[n].outcome] else [])
  }

  /** The read numbers those outcomes belong to. */
  function Numbers(log: seq<Settlement>, op: nat): (r: seq<nat>)
    ensures |r| == |Outs(log, op)|
  {
    if log == [] then []
    else
      var n := |log| - 1;
      Numbers(log[..n], op) + (if log[n].op == op then [log[n].number] else [])
  }

  function TaskOp(t: Task): nat {
    t.op
  }

  function TasksOf(tasks: seq<Task>, op: nat): (r: seq<Task>)
    ensures forall k :: 0 <= k < |r| ==> r[k].op == op && r[k] in tasks
  {
    Picked(tasks, TaskOp, op)
  }

  lemma LogAppend(log: seq<Settlement>, st: Settlement, op: nat)
    ensures Outs(log + [st], op) == Outs(log, op) + (if st.op == op then [st.outcome] else [])
    ensures Numbers(log + [st], op) == Numbers(log, op) + (if st.op == op then [st.number] else [])
  {
    assert (log + [st])[..|log|] == log;
  }

  function Upto(n: nat): seq<nat> {
    seq(n, i => i)
  }

  function Repeat(o: Outcome, n: nat): seq<Outcome> {
    seq(n, _ => o)
  }

  function Same(op: nat, slots: seq<nat>, o: Outcome): seq<Settlement> {
    seq(|slots|, i requires 0 <= i < |slots| => Settlement(op, slots[i], o))
  }

  lemma SameStep(log: seq<Settlement>, op: nat, slots: seq<nat>, o: Outcome)
    requires slots != []
    ensures var n := |slots| - 1;
      log + Same(op, slots, o) == (log + Same(op, slots[..n], o)) + [Settlement(op, slots[n], o)]
  {
    var n := |slots| - 1;
    assert Same(op, slots, o) == Same(op, slots[..n], o) + [Settlement(op, slots[n], o)];
  }

  lemma RepeatStep(o: Outcome, n: nat)
    ensures Repeat(o, n + 1) == Repeat(o, n) + [o]
  {
  }

  lemma NoSlots(log: seq<Settlement>, op: nat, o: Outcome)
    ensures log + Same(op, [], o) == log && Repeat(o, 0) == []
  {
  }

  /** Settling `slots` of one stream appends to its own history only. */
  lemma {:induction false} LogSame(log: seq<Settlement>, op: nat, slots: seq<nat>, o: Outcome)
    ensures Outs(log + Same(op, slots, o), op) == Outs(log, op) + Repeat(o, |slots|)
    ensures Numbers(log + Same(op, slots, o), op) == Numbers(log, op) + slots
    decreases |slots|
  {
    hide Same, Repeat;
    if slots == [] {
      NoSlots(log, op, o);
    } else {
      var n := |slots| - 1;
      LogSame(log, op, slots[..n], o);
      SameStep(log, op, slots, o);
      LogAppend(log + Same(op, slots[..n], o), Settlement(op, slots[n], o), op);
      RepeatStep(o, n);
      assert slots == slots[..n] + [slots[n]];
    }
  }

  lemma {:induction false} LogOther(log: seq<Settlement>, owner: nat, slots: seq<nat>, o: Outcome, op: nat)
    requires owner != op
    ensures Outs(log + Same(owner, slots, o), op) == Outs(log, op)
    ensures Numbers(log + Same(owner, slots, o), op) == Numbers(log, op)
    decreases |slots|
  {
    if slots == [] {
      assert log + Same(owner, slots, o) == log;
    } else {
      var n := |slots| - 1;
      LogOther(log, owner, slots[..n], o, op);
      SameStep(log, owner, slots, o);
      LogAppend(log + Same(owner, slots[..n], o), Settlement(owner, slots[n], o), op);
    }
  }

  // ----------------------------------------------------------- delivered data

  predicate IsData(o: Outcome) {
    o.Value? || o.Text?
  }

  /** How many outcomes carry data before the first that does not. */
  function Leading(outs: seq<Outcome>): (k: nat)
    ensures k <= |outs|
    ensures forall i :: 0 <= i < k ==> IsData(outs[i])
    ensures k < |outs| ==> !IsData(outs[k])
  {
    if outs == [] || !IsData(outs[0]) then 0 else 1 + Leading(outs[1..])
  }

  function Joined(outs: seq<Outcome>): Utf8.Text {
    if outs == [] then []
    else
      var n := |outs| - 1;
      Joined(outs[..n]) + (if outs[n].Text? then outs[n].text else [])
  }

  /** The `k`-th chunk of a blob cut into pieces of `size`. */
  function ChunkAt(blob: seq<Byte>, size: nat, k: nat): seq<Byte> {
    blob[Min(k * size, |blob|)..Min(k * size + size, |blob|)]
  }

  /** `data` are the chunks of the blob, one by one, up to `loaded`. */
  ghost predicate BytesSoFar(c: Cell, data: seq<Outcome>) {
    && c.loaded == Min(|data| * c.chunkSize, |c.blob|)
    && forall k :: 0 <= k < |data| ==>
         k * c.chunkSize < |c.blob| && data[k] == Value(ChunkAt(c.blob, c.chunkSize, k))
  }

  /** `data` are non-empty texts that join to `whole`. */
  ghost predicate TextIs(data: seq<Outcome>, whole: Utf8.Text) {
    && (forall k :: 0 <= k < |data| ==> data[k].Text? && data[k].text != [])
    && Joined(data) == whole
  }

  /** `done` is decoded up to the sequence it may have cut, which waits. */
  ghost predicate TextSoFar(done: seq<Byte>, pending: seq<Byte>, data: seq<Outcome>) {
    TextIs(data, Utf8.Lossy(Utf8.Settled(done))) && pending == Utf8.Waiting(done)
  }

  ghost predicate LiveHistory(c: Cell, outs: seq<Outcome>) {
    && c.loaded <= |c.blob|
    && match c.mode
       case BytesMode => BytesSoFar(c, outs)
       case TextMode =>
         TextSoFar(c.blob[..c.loaded], c.pending, outs)
  }

  /** Only the EOF transition ends a lease without the release path's mark. */
  predicate EndedAtEof(c: Cell) {
    c.leaseTerminal && !c.leaseReleased
  }

  function Closing(c: Cell): Outcome {
    if c.errored.Some? then Rejected(c.errored.value) else Done
  }

  /** Data first, then one and the same closing outcome for every later read. */
  ghost predicate DeadHistory(c: Cell, outs: seq<Outcome>) {
    var k := Leading(outs);
    && c.loaded <= |c.blob|
    && (forall i :: k <= i < |outs| ==> outs[i] == Closing(c))
    && (EndedAtEof(c) ==> c.loaded == |c.blob| && c.errored.None?)
    && match c.mode
       case BytesMode => BytesSoFar(c, outs[..k])
       case TextMode =>
         TextIs(outs[..k], if EndedAtEof(c) then Utf8.Decoded(c.blob)
                           else Utf8.Lossy(Utf8.Settled(c.blob[..c.loaded])))
  }

  // ---------------------------------------------------------------- invariant

  /** The one request a live stream may have outstanding. */
  function NextTask(c: Cell, op: nat): Task
    requires c.loaded <= |c.blob|
  {
    Task(op, 1, c.loaded, Min(c.chunkSize, |c.blob| - c.loaded))
  }

  ghost predicate GoodAnswer(c: Cell, op: nat, a: ChunkCompletion)
    requires c.loaded <= |c.blob|
  {
    && a.op == op && a.generation == 1
    && (a.kind.Failed? || a.kind == Answer(c.blob, NextTask(c, op), None))
  }

  /** Requests of one stream that are with a worker, queued, or drained but unsettled. */
  function Work(w: World, batch: seq<ChunkCompletion>, op: nat): nat {
    |TasksOf(w.s.tasks, op)| + |At(w.b, op).streamQ| + |Of(batch, op)|
  }

  ghost predicate Fresh(c: Cell, e: OpEntry) {
    && c.hasData && !c.cancelled && c.errored.None? && !c.leaseTerminal && !c.leaseReleased
    && !e.terminal && !e.released && e.generation == c.generation == 1
    && ChunkInRange(c.chunkSize)
  }

  /** The live root: open cell, reserved slot, stored payload. */
  ghost predicate RootOk(w: World, op: nat) {
    && op in w.s.cells && op in w.s.ops
    && var c := w.s.cells[op];
    var v := At(w.b, op);
    && op < w.b.next
    && v.token && v.ordered && v.whole.None? && v.readerQ == []
    && Fresh(c, w.s.ops[op])
    && op in w.s.payloads && w.s.payloads[op] == c.blob
    && op !in w.s.errors
  }

  /** Every read ever queued is settled, in hand (`held`) or queued, in order. */
  ghost predicate DemandsOk(w: World, op: nat, held: seq<nat>)
    requires op in w.s.cells
  {
    var c := w.s.cells[op];
    && (forall n :: ReadKey(op, n) in w.s.demands <==> n in c.queue)
    && (forall n :: n in c.queue ==> w.s.demands[ReadKey(op, n)] == PendingRead(c.mode, 1))
    && Numbers(w.s.log, op) + held + c.queue == Upto(c.nextSeq)
  }

  /** At most one request, always for the next chunk, wherever it is. */
  ghost predicate RequestsOk(w: World, batch: seq<ChunkCompletion>, op: nat)
    requires op in w.s.cells && w.s.cells[op].loaded <= |w.s.cells[op].blob|
  {
    var c := w.s.cells[op];
    && Work(w, batch, op) == (if c.inFlight then 1 else 0)
    && (forall t :: t in TasksOf(w.s.tasks, op) ==> t == NextTask(c, op))
    && (forall a :: a in At(w.b, op).streamQ ==> GoodAnswer(c, op, a))
    && (forall a :: a in Of(batch, op) ==> GoodAnswer(c, op, a))
  }

  /** A live operation whose demands `held` are taken out but not settled yet. */
  ghost predicate LiveCore(w: World, batch: seq<ChunkCompletion>, op: nat, held: seq<nat>) {
    && RootOk(w, op)
    && DemandsOk(w, op, held)
    && LiveHistory(w.s.cells[op], Outs(w.s.log, op))
    && RequestsOk(w, batch, op)
  }

  /**
    Between calls: a request is outstanding exactly while a read is unsettled,
    and the bridge's demand probe says so too.
  */
  ghost predicate LiveOk(w: World, batch: seq<ChunkCompletion>, op: nat) {
    && LiveCore(w, batch, op, [])
    && var c := w.s.cells[op];
    && (c.inFlight <==> c.queue != [])
    && (At(w.b, op).live <==> c.queue != [])
  }

  ghost predicate DeadOk(w: World, op: nat) {
    && op in w.s.cells && op !in w.s.ops
    && var c := w.s.cells[op];
    && op < w.b.next && op !in w.b.tokens
    && op !in w.s.payloads
    && (forall n :: ReadKey(op, n) !in w.s.demands)
    && c.leaseTerminal && !c.hasData && !c.inFlight && c.queue == [] && ChunkInRange(c.chunkSize)
    && (op in w.s.errors <==> c.errored.Some?)
    && (op in w.s.errors ==> c.errored == Some(w.s.errors[op]))
    && Numbers(w.s.log, op) == Upto(c.nextSeq)
    && DeadHistory(c, Outs(w.s.log, op))
  }

  ghost predicate AbsentOk(w: World, op: nat) {
    && op !in w.s.cells && op !in w.s.ops && op !in w.s.payloads && op !in w.s.errors
    && (forall n :: ReadKey(op, n) !in w.s.demands)
    && TasksOf(w.s.tasks, op) == []
    && Outs(w.s.log, op) == [] && Numbers(w.s.log, op) == []
  }

  ghost predicate Local(w: World, batch: seq<ChunkCompletion>, op: nat) {
    if op !in w.s.cells then AbsentOk(w, op)
    else if op in w.s.ops then LiveOk(w, batch, op)
    else DeadOk(w, op)
  }

  /** Reader objects against the endpoint flags of their streams. */
  ghost predicate EndpointsOk(s: StreamState) {
    && (forall i :: 0 <= i < |s.readers| ==>
          var o := s.readers[i];
          && o.op in s.cells
          && (o.released || o.collected ==> o.signalled)
          && (!o.signalled && o.op in s.ops ==>
                s.cells[o.op].readerAlive && s.cells[o.op].readerRegistered && s.cells[o.op].locked))
    && (forall i, j :: 0 <= i < j < |s.readers| && s.readers[i].op == s.readers[j].op ==>
          s.readers[i].signalled)
    && (forall op :: op in s.ops && op in s.cells ==>
          var c := s.cells[op];
          && (!c.locked ==> !c.readerRegistered && !c.readerAlive)
          && (c.streamAlive ==> c.streamRegistered)
          && (c.readerAlive ==> c.readerRegistered && Held(s, op)))
  }

  /** Some reader object still holds the reader side of `op`. */
  ghost predicate Held(s: StreamState, op: nat) {
    exists i :: 0 <= i < |s.readers| && s.readers[i].op == op && !s.readers[i].signalled
  }

  ghost predicate StreamInv(w: World, batch: seq<ChunkCompletion>) {
    && Valid(w.b) && !w.b.shutdown
    && (forall op :: Local(w, batch, op))
    && EndpointsOk(w.s)
  }

  // ------------------------------------------------------------------- frames

  /** Nothing about operation `x` differs between the two states. */
  ghost predicate SameAt(w: World, batch: seq<ChunkCompletion>, w': World, batch': seq<ChunkCompletion>, x: nat) {
    && (x in w.s.cells <==> x in w'.s.cells)
    && (x in w.s.cells ==> w'.s.cells[x] == w.s.cells[x] && At(w'.b, x) == At(w.b, x))
    && (x in w.s.ops <==> x in w'.s.ops)
    && (x in w.s.ops ==> w'.s.ops[x] == w.s.ops[x])
    && (x in w.s.payloads <==> x in w'.s.payloads)
    && (x in w.s.payloads ==> w'.s.payloads[x] == w.s.payloads[x])
    && (x in w.s.errors <==> x in w'.s.errors)
    && (x in w.s.errors ==> w'.s.errors[x] == w.s.errors[x])
    && (forall n :: ReadKey(x, n) in w.s.demands <==> ReadKey(x, n) in w'.s.demands)
    && (forall n :: ReadKey(x, n) in w.s.demands ==> w'.s.demands[ReadKey(x, n)] == w.s.demands[ReadKey(x, n)])
    && TasksOf(w'.s.tasks, x) == TasksOf(w.s.tasks, x)
    && Of(batch', x) == Of(batch, x)
    && Outs(w'.s.log, x) == Outs(w.s.log, x)
    && Numbers(w'.s.log, x) == Numbers(w.s.log, x)
  }

  lemma Frame(w: World, batch: seq<ChunkCompletion>, w': World, batch': seq<ChunkCompletion>, x: nat)
    requires Local(w, batch, x) && SameAt(w, batch, w', batch', x)
    requires w.b.next <= w'.b.next
    ensures Local(w', batch', x)
  {
    if x in w.s.cells && x in w.s.ops {
      assert LiveCore(w', batch', x, []);
    }
  }

  /** A step that touches `op` alone needs to look at `op` alone. */
  lemma Rebuild(w: World, batch: seq<ChunkCompletion>, w': World, batch': seq<ChunkCompletion>, op: nat)
    requires StreamInv(w, batch)
    requires Valid(w'.b) && !w'.b.shutdown && w.b.next <= w'.b.next
    requires forall x :: x != op ==> SameAt(w, batch, w', batch', x)
    requires Local(w', batch', op) && EndpointsOk(w'.s)
    ensures StreamInv(w', batch')
  {
    forall x ensures Local(w', batch', x) {
      if x != op {
        Frame(w, batch, w', batch', x);
      }
    }
  }

  /** Another client moved the bridge at ids that are no stream's. */
  lemma OtherClientMoved(w: World, b': BridgeState, batch: seq<ChunkCompletion>)
    requires StreamInv(w, batch)
    requires Valid(b') && !b'.shutdown && w.b.next <= b'.next
    requires forall x :: x in w.s.cells ==> At(b', x) == At(w.b, x)
    ensures StreamInv(w.(b := b'), batch)
  {
    var w' := w.(b := b');
    forall x ensures Local(w', batch, x) {
      assert Local(w, batch, x);
      Frame(w, batch, w', batch, x);
    }
  }
}
