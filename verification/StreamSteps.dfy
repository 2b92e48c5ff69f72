/**
  Every native call, drained completion and environment step of the stream
  machine keeps `StreamInv`.
*/
module StreamSteps {
  import opened Common
  import opened Bridge
  import opened Streams
  import opened StreamLaws
  import Utf8

  // ---------------------------------------------------------- working in pieces

  /** The invariant for every operation except `op`, which a call is working on. */
  ghost predicate AllBut(w: World, batch: seq<ChunkCompletion>, op: nat) {
    && Valid(w.b) && !w.b.shutdown
    && (forall x :: x != op ==> Local(w, batch, x))
    && EndpointsOk(w.s)
  }

  ghost predicate OnlyAt(w: World, batch: seq<ChunkCompletion>, w': World, batch': seq<ChunkCompletion>, op: nat) {
    && w.b.next <= w'.b.next
    && forall x :: x != op ==> SameAt(w, batch, w', batch', x)
  }

  lemma MoveAllBut(w: World, batch: seq<ChunkCompletion>, w': World, batch': seq<ChunkCompletion>, op: nat)
    requires AllBut(w, batch, op) && OnlyAt(w, batch, w', batch', op)
    requires Valid(w'.b) && !w'.b.shutdown && EndpointsOk(w'.s)
    ensures AllBut(w', batch', op)
  {
    forall x | x != op ensures Local(w', batch', x) {
      Frame(w, batch, w', batch', x);
    }
  }

  lemma Whole(w: World, batch: seq<ChunkCompletion>, op: nat)
    requires AllBut(w, batch, op) && Local(w, batch, op)
    ensures StreamInv(w, batch)
  {
  }

  ghost predicate SameEndpoints(c: Cell, c': Cell) {
    && c'.locked == c.locked
    && c'.streamRegistered == c.streamRegistered && c'.readerRegistered == c.readerRegistered
    && c'.streamAlive == c.streamAlive && c'.readerAlive == c.readerAlive
  }

  lemma EndpointsKept(s: StreamState, s': StreamState)
    requires EndpointsOk(s) && s'.readers == s.readers
    requires s'.ops.Keys <= s.ops.Keys && s.cells.Keys == s'.cells.Keys
    requires forall x :: x in s'.cells ==> SameEndpoints(s.cells[x], s'.cells[x])
    ensures EndpointsOk(s')
  {
    forall op | op in s'.ops && op in s'.cells && s'.cells[op].readerAlive
      ensures Held(s', op)
    {
      assert Held(s, op);
    }
  }

  // ------------------------------------------------------------ closed forms

  function Keys(op: nat, slots: seq<nat>): set<ReadKey> {
    set n | n in slots :: ReadKey(op, n)
  }

  lemma KeysSplit(m: map<ReadKey, PendingRead>, op: nat, slots: seq<nat>)
    requires slots != []
    ensures m - {ReadKey(op, slots[0])} - Keys(op, slots[1..]) == m - Keys(op, slots)
  {
    assert Keys(op, slots) == {ReadKey(op, slots[0])} + Keys(op, slots[1..]);
  }

  lemma SameSplit(log: seq<Settlement>, op: nat, slots: seq<nat>, o: Outcome)
    requires slots != []
    ensures log + [Settlement(op, slots[0], o)] + Same(op, slots[1..], o) == log + Same(op, slots, o)
  {
    assert Same(op, slots, o) == [Settlement(op, slots[0], o)] + Same(op, slots[1..], o);
  }

  lemma {:induction false} SettleSlotsForm(w: World, op: nat, slots: seq<nat>, o: Outcome)
    requires Increasing(slots)
    requires forall n :: n in slots ==> ReadKey(op, n) in w.s.demands
    ensures SettleSlots(w, op, slots, o)
         == w.(s := w.s.(demands := w.s.demands - Keys(op, slots), log := w.s.log + Same(op, slots, o)))
    decreases |slots|
  {
    if slots == [] {
      assert w.s.log + Same(op, slots, o) == w.s.log;
      assert w.s.demands - Keys(op, slots) == w.s.demands;
    } else {
      var w1 := Logged(w.(s := w.s.(demands := w.s.demands - {ReadKey(op, slots[0])})), op, slots[0], o);
      forall n | n in slots[1..] ensures ReadKey(op, n) in w1.s.demands {
        assert n in slots && slots[0] < n;
      }
      SettleSlotsForm(w1, op, slots[1..], o);
      KeysSplit(w.s.demands, op, slots);
      SameSplit(w.s.log, op, slots, o);
    }
  }

  /**
    The common shape of all terminal paths: cell closed, root, payload, demands
    and slot gone, `first` and then the queue settled.
  */
  function End(w: World, op: nat, c': Cell, errors: map<nat, FileApiError>, first: seq<Settlement>,
               o: Outcome): World
    requires op in w.s.cells
  {
    var slots := w.s.cells[op].queue;
    World(Unreserve(SetLiveDemand(w.b, op, false), op).0,
          w.s.(cells := w.s.cells[op := c'], ops := w.s.ops - {op}, errors := errors,
               demands := w.s.demands - Keys(op, slots), payloads := w.s.payloads - {op},
               log := w.s.log + first + Same(op, slots, o)))
  }

  lemma QueueIncreasing(before: seq<nat>, queue: seq<nat>, n: nat)
    requires before + queue == Upto(n)
    ensures Increasing(queue)
  {
    forall i, j | 0 <= i < j < |queue|
      ensures queue[i] < queue[j]
    {
      assert queue[i] == (before + queue)[|before| + i];
      assert queue[j] == (before + queue)[|before| + j];
    }
  }

  lemma EndedLogOther(log: seq<Settlement>, op: nat, first: seq<Settlement>, slots: seq<nat>, o: Outcome, x: nat)
    requires |first| <= 1 && (forall k :: 0 <= k < |first| ==> first[k].op == op) && x != op
    ensures var log' := log + first + Same(op, slots, o);
      Numbers(log', x) == Numbers(log, x) && Outs(log', x) == Outs(log, x)
  {
    LogOther(log + first, op, slots, o, x);
    if first == [] {
      assert log + first == log;
    } else {
      assert first == [first[0]];
      LogAppend(log, first[0], x);
    }
  }

  lemma EndBridge(b: BridgeState, op: nat)
    requires Valid(b)
    ensures var b' := Unreserve(SetLiveDemand(b, op, false), op).0;
      && Valid(b') && b'.next == b.next && b'.shutdown == b.shutdown && op !in b'.tokens
      && (forall x :: x != op ==> At(b', x) == At(b, x))
  {
    SetLiveDemandKeeps(b, op, false);
    UnreserveKeeps(SetLiveDemand(b, op, false), op);
  }

  lemma EndOthers(w: World, batch: seq<ChunkCompletion>, op: nat, c': Cell, errors: map<nat, FileApiError>,
                  first: seq<Settlement>, o: Outcome, x: nat)
    requires Valid(w.b) && op in w.s.cells && x != op
    requires |first| <= 1 && forall k :: 0 <= k < |first| ==> first[k].op == op
    requires x in errors <==> x in w.s.errors
    requires x in errors ==> errors[x] == w.s.errors[x]
    ensures SameAt(w, batch, End(w, op, c', errors, first, o), batch, x)
  {
    EndBridge(w.b, op);
    EndedLogOther(w.s.log, op, first, w.s.cells[op].queue, o, x);
    assert forall n :: ReadKey(x, n) !in Keys(op, w.s.cells[op].queue);
  }

  /** What closes the cell of `op`, and the settlement of a read in hand. */
  ghost predicate Closes(w: World, op: nat, held: seq<nat>, c': Cell, errors: map<nat, FileApiError>,
                         first: seq<Settlement>)
    requires op in w.s.cells
  {
    && |first| == |held| <= 1
    && (forall k :: 0 <= k < |first| ==> first[k].op == op && first[k].number == held[k])
    && SameEndpoints(w.s.cells[op], c')
    && c'.leaseTerminal && !c'.hasData && !c'.inFlight && c'.queue == []
    && c'.nextSeq == w.s.cells[op].nextSeq && c'.chunkSize == w.s.cells[op].chunkSize
    && (forall x :: x != op ==> (x in errors <==> x in w.s.errors))
    && (forall x :: x != op && x in errors ==> errors[x] == w.s.errors[x])
    && (op in errors <==> c'.errored.Some?)
    && (op in errors ==> c'.errored == Some(errors[op]))
  }

  lemma EndRest(w: World, batch: seq<ChunkCompletion>, op: nat, held: seq<nat>, c': Cell,
                errors: map<nat, FileApiError>, first: seq<Settlement>, o: Outcome)
    requires AllBut(w, batch, op) && op in w.s.cells && Closes(w, op, held, c', errors, first)
    ensures AllBut(End(w, op, c', errors, first, o), batch, op)
  {
    var w' := End(w, op, c', errors, first, o);
    EndBridge(w.b, op);
    forall x | x != op ensures SameAt(w, batch, w', batch, x) {
      EndOthers(w, batch, op, c', errors, first, o, x);
    }
    EndpointsKept(w.s, w'.s);
    MoveAllBut(w, batch, w', batch, op);
  }

  lemma EndDead(w: World, batch: seq<ChunkCompletion>, op: nat, held: seq<nat>, c': Cell,
                errors: map<nat, FileApiError>, first: seq<Settlement>, o: Outcome)
    requires Valid(w.b) && LiveCore(w, batch, op, held) && Closes(w, op, held, c', errors, first)
    requires DeadHistory(c', Outs(w.s.log, op)
                             + (if first == [] then [] else [first[0].outcome])
                             + Repeat(o, |w.s.cells[op].queue|))
    ensures DeadOk(End(w, op, c', errors, first, o), op)
  {
    hide DeadHistory, LiveHistory;
    EndBridge(w.b, op);
    EndedLog(w.s.log, op, held, first, w.s.cells[op].queue, o);
  }

  /** Ending a live operation leaves it properly dead and everybody else alone. */
  lemma EndKeeps(w: World, batch: seq<ChunkCompletion>, op: nat, held: seq<nat>, c': Cell,
                 errors: map<nat, FileApiError>, first: seq<Settlement>, o: Outcome)
    requires AllBut(w, batch, op) && LiveCore(w, batch, op, held)
    requires |first| == |held| <= 1
    requires forall k :: 0 <= k < |first| ==> first[k].op == op && first[k].number == held[k]
    requires SameEndpoints(w.s.cells[op], c')
    requires c'.leaseTerminal && !c'.hasData && !c'.inFlight && c'.queue == []
    requires c'.nextSeq == w.s.cells[op].nextSeq && c'.chunkSize == w.s.cells[op].chunkSize
    requires forall x :: x != op ==> (x in errors <==> x in w.s.errors)
    requires forall x :: x != op && x in errors ==> errors[x] == w.s.errors[x]
    requires op in errors <==> c'.errored.Some?
    requires op in errors ==> c'.errored == Some(errors[op])
    requires DeadHistory(c', Outs(w.s.log, op)
                             + (if first == [] then [] else [first[0].outcome])
                             + Repeat(o, |w.s.cells[op].queue|))
    ensures StreamInv(End(w, op, c', errors, first, o), batch)
  {
    hide DeadHistory, LiveHistory, DeadOk, DemandsOk, RequestsOk;
    EndRest(w, batch, op, held, c', errors, first, o);
    EndDead(w, batch, op, held, c', errors, first, o);
  }

  lemma EndedLog(log: seq<Settlement>, op: nat, held: seq<nat>, first: seq<Settlement>, slots: seq<nat>, o: Outcome)
    requires |first| == |held| <= 1
    requires forall k :: 0 <= k < |first| ==> first[k].op == op && first[k].number == held[k]
    ensures var log' := log + first + Same(op, slots, o);
      && Numbers(log', op) == Numbers(log, op) + held + slots
      && Outs(log', op) == Outs(log, op) + (if first == [] then [] else [first[0].outcome]) + Repeat(o, |slots|)
  {
    LogSame(log + first, op, slots, o);
    if first == [] {
      assert log + first == log && held == [];
    } else {
      assert first == [first[0]] && held == [held[0]];
      LogAppend(log, first[0], op);
    }
  }

  // ---------------------------------------------------------- histories closing

  lemma LeadingIs(outs: seq<Outcome>, k: nat)
    requires k <= |outs|
    requires forall i :: 0 <= i < k ==> IsData(outs[i])
    requires k < |outs| ==> !IsData(outs[k])
    ensures Leading(outs) == k
  {
  }

  lemma LiveIsData(c: Cell, outs: seq<Outcome>)
    requires LiveHistory(c, outs)
    ensures forall i :: 0 <= i < |outs| ==> IsData(outs[i])
  {
  }

  /** What a live cell's history or its completed text must be for the end `c'`. */
  ghost predicate DeliveredBy(c: Cell, data: seq<Outcome>) {
    && c.loaded <= |c.blob|
    && (EndedAtEof(c) ==> c.loaded == |c.blob| && c.errored.None?)
    && match c.mode
       case BytesMode => BytesSoFar(c, data)
       case TextMode =>
         TextIs(data, if EndedAtEof(c) then Utf8.Decoded(c.blob) else Utf8.Lossy(Utf8.Settled(c.blob[..c.loaded])))
  }

  lemma BytesSame(c: Cell, c': Cell, data: seq<Outcome>)
    requires c'.loaded == c.loaded && c'.blob == c.blob && c'.chunkSize == c.chunkSize
    ensures BytesSoFar(c', data) == BytesSoFar(c, data)
  {
  }

  /** Data, then one outcome over and over. */
  lemma ClosedAfter(c: Cell, data: seq<Outcome>, n: nat)
    requires DeliveredBy(c, data) && forall i :: 0 <= i < |data| ==> IsData(data[i])
    ensures DeadHistory(c, data + Repeat(Closing(c), n))
  {
    hide BytesSoFar, TextIs;
    var all := data + Repeat(Closing(c), n);
    LeadingIs(all, |data|);
    assert all[..|data|] == data;
  }

  /** Closing a live history with a uniform non-data outcome. */
  lemma CloseHistory(c: Cell, c': Cell, outs: seq<Outcome>, n: nat)
    requires LiveHistory(c, outs)
    requires c'.blob == c.blob && c'.loaded == c.loaded && c'.chunkSize == c.chunkSize && c'.mode == c.mode
    requires !EndedAtEof(c')
    ensures DeadHistory(c', outs + Repeat(Closing(c'), n))
  {
    var all := outs + Repeat(Closing(c'), n);
    LiveIsData(c, outs);
    LeadingIs(all, |outs|);
    assert all[..|outs|] == outs;
  }

  lemma CloseFromHeld(c: Cell, c': Cell, outs: seq<Outcome>, n: nat)
    requires LiveHistory(c, outs)
    requires c'.blob == c.blob && c'.loaded == c.loaded && c'.chunkSize == c.chunkSize && c'.mode == c.mode
    requires !EndedAtEof(c')
    ensures DeadHistory(c', outs + [Closing(c')] + Repeat(Closing(c'), n))
  {
    CloseHistory(c, c', outs, n + 1);
    assert outs + [Closing(c')] + Repeat(Closing(c'), n) == outs + Repeat(Closing(c'), n + 1);
  }

  // ------------------------------------------------------------ terminal paths

  function FailedCell(c: Cell, error: FileApiError): Cell {
    c.(errored := Some(error), hasData := false, inFlight := false, generation := c.generation + 1,
       leaseTerminal := true, leaseReleased := true, queue := [])
  }

  /** A live root whose queue names all its demands. */
  ghost predicate Drainable(w: World, op: nat) {
    && op in w.s.cells && op in w.s.ops && !w.s.ops[op].released
    && var slots := w.s.cells[op].queue;
    && Increasing(slots) && (forall n :: n in slots ==> ReadKey(op, n) in w.s.demands)
    && !HasDemand(w.s.demands - Keys(op, slots), op)
  }

  lemma LiveDrainable(w: World, batch: seq<ChunkCompletion>, op: nat, held: seq<nat>)
    requires LiveCore(w, batch, op, held)
    ensures Drainable(w, op)
  {
    var c := w.s.cells[op];
    QueueIncreasing(Numbers(w.s.log, op) + held, c.queue, c.nextSeq);
    var rest := w.s.demands - Keys(op, c.queue);
    forall k | k in w.s.demands && k.op == op
      ensures k in Keys(op, c.queue)
    {
      assert k == ReadKey(op, k.number);
    }
  }

  /** The state after a full drain of the queue of `op`. */
  function QueueDrained(w: World, op: nat, o: Outcome): World
    requires op in w.s.cells
  {
    var c := w.s.cells[op];
    World(SetLiveDemand(w.b, op, false),
          w.s.(cells := w.s.cells[op := c.(queue := [])],
               demands := w.s.demands - Keys(op, c.queue), log := w.s.log + Same(op, c.queue, o)))
  }

  lemma DrainForm(w: World, op: nat, o: Outcome)
    requires Drainable(w, op)
    ensures DrainQueue(w, op, o) == QueueDrained(w, op, o)
  {
    SettleSlotsForm(EmptyQueue(w, op), op, w.s.cells[op].queue, o);
  }

  lemma ReleaseForm(w: World, op: nat)
    requires op in w.s.cells && op in w.s.ops && !w.s.ops[op].released
    ensures Release(w, op)
      == World(Unreserve(SetLiveDemand(w.b, op, false), op).0,
               w.s.(ops := w.s.ops - {op}, payloads := w.s.payloads - {op},
                    cells := w.s.cells[op := w.s.cells[op].(leaseTerminal := true, leaseReleased := true)]))
  {
  }

  lemma QuietTwice(b: BridgeState, op: nat)
    ensures SetLiveDemand(SetLiveDemand(b, op, false), op, false) == SetLiveDemand(b, op, false)
  {
  }

  function ReleasedCell(c: Cell): Cell {
    c.(queue := [], leaseTerminal := true, leaseReleased := true)
  }

  lemma ReleaseDrained(w: World, op: nat, o: Outcome)
    requires op in w.s.cells && op in w.s.ops && !w.s.ops[op].released
    ensures Release(QueueDrained(w, op, o), op) == End(w, op, ReleasedCell(w.s.cells[op]), w.s.errors, [], o)
  {
    var d := QueueDrained(w, op, o);
    ReleaseForm(d, op);
    QuietTwice(w.b, op);
    UpdateTwice(w.s.cells, op, w.s.cells[op].(queue := []), ReleasedCell(w.s.cells[op]));
    assert w.s.log + [] == w.s.log;
  }

  lemma UpdateTwice<V>(m: map<nat, V>, k: nat, a: V, b: V)
    ensures m[k := a][k := b] == m[k := b]
  {
  }

  /** Draining and releasing is one `End`. */
  lemma DrainReleaseForm(w: World, op: nat, o: Outcome)
    requires Drainable(w, op)
    ensures Release(DrainQueue(w, op, o), op) == End(w, op, ReleasedCell(w.s.cells[op]), w.s.errors, [], o)
  {
    DrainForm(w, op, o);
    ReleaseDrained(w, op, o);
  }

  /** The error path, from any live state whose demand `number` is in hand. */
  lemma FailWithForm(w: World, op: nat, number: nat, error: FileApiError)
    requires Drainable(w, op)
    ensures FailWith(w, op, number, error)
         == End(w, op, FailedCell(w.s.cells[op], error), w.s.errors[op := error],
                [Settlement(op, number, Rejected(error))], Rejected(error))
  {
    var w1 := Logged(MarkFailed(w, op, error), op, number, Rejected(error));
    DrainReleaseForm(w1, op, Rejected(error));
    UpdateTwice(w.s.cells, op, MarkFailed(w, op, error).s.cells[op], FailedCell(w.s.cells[op], error));
    assert w1.s.log + [] == w.s.log + [Settlement(op, number, Rejected(error))];
  }

  lemma FailWithKeeps(w: World, batch: seq<ChunkCompletion>, op: nat, number: nat, error: FileApiError)
    requires AllBut(w, batch, op) && LiveCore(w, batch, op, [number])
    ensures StreamInv(FailWith(w, op, number, error), batch)
  {
    var c := w.s.cells[op];
    LiveDrainable(w, batch, op, [number]);
    FailWithForm(w, op, number, error);
    CloseFromHeld(c, FailedCell(c, error), Outs(w.s.log, op), |c.queue|);
    EndKeeps(w, batch, op, [number], FailedCell(c, error), w.s.errors[op := error],
             [Settlement(op, number, Rejected(error))], Rejected(error));
  }

  function EofCell(c: Cell): Cell {
    c.(pending := if c.mode.TextMode? then [] else c.pending,
       hasData := false, inFlight := false, leaseTerminal := true, queue := [])
  }

  function EofOutcome(c: Cell): Outcome {
    if c.mode.TextMode? && c.pending != [] then Text(Utf8.Flushed(c.pending)) else Done
  }

  lemma TransitionForm(w: World, op: nat)
    requires op in w.s.cells && op in w.s.ops && !w.s.ops[op].released && !w.s.ops[op].terminal
    ensures var c := w.s.cells[op];
      TransitionEof(w, op)
      == World(Unreserve(SetLiveDemand(w.b, op, false), op).0,
               w.s.(cells := w.s.cells[op := c.(hasData := false, inFlight := false, leaseTerminal := true)],
                    ops := w.s.ops - {op}, payloads := w.s.payloads - {op}))
  {
  }

  /** Draining once the slot is gone leaves the bridge alone. */
  lemma DrainQuietForm(w: World, op: nat, o: Outcome)
    requires op in w.s.cells && op !in w.b.tokens
    requires var slots := w.s.cells[op].queue;
      Increasing(slots) && forall n :: n in slots ==> ReadKey(op, n) in w.s.demands
    ensures var c := w.s.cells[op];
      DrainQueue(w, op, o)
      == w.(s := w.s.(cells := w.s.cells[op := c.(queue := [])],
                      demands := w.s.demands - Keys(op, c.queue), log := w.s.log + Same(op, c.queue, o)))
  {
    SettleSlotsForm(EmptyQueue(w, op), op, w.s.cells[op].queue, o);
  }

  lemma EofAfterFlush(w: World, op: nat, number: nat, o: Outcome)
    requires Drainable(w, op) && !w.s.ops[op].terminal
    ensures var c := w.s.cells[op];
      DrainQueue(Logged(TransitionEof(w, op), op, number, o), op, Done)
      == End(w, op, c.(hasData := false, inFlight := false, leaseTerminal := true, queue := []),
             w.s.errors, [Settlement(op, number, o)], Done)
  {
    var c := w.s.cells[op];
    var closed := c.(hasData := false, inFlight := false, leaseTerminal := true);
    TransitionForm(w, op);
    DrainQuietForm(Logged(TransitionEof(w, op), op, number, o), op, Done);
    UpdateTwice(w.s.cells, op, closed, closed.(queue := []));
  }

  /** The EOF path: the decoder tail (or done) first, then done for everyone. */
  lemma SettleEofForm(w: World, op: nat, number: nat, read: PendingRead)
    requires Drainable(w, op) && !w.s.ops[op].terminal && read.mode == w.s.cells[op].mode
    ensures SettleEof(w, op, number, read)
         == End(w, op, EofCell(w.s.cells[op]), w.s.errors, [Settlement(op, number, EofOutcome(w.s.cells[op]))], Done)
  {
    var c := w.s.cells[op];
    if read.mode.TextMode? {
      var w1 := WithCell(w, op, c.(pending := []));
      EofAfterFlush(w1, op, number, EofOutcome(c));
      UpdateTwice(w.s.cells, op, c.(pending := []), EofCell(c));
    } else {
      EofAfterFlush(w, op, number, Done);
    }
  }

  lemma JoinedAppend(outs: seq<Outcome>, o: Outcome)
    ensures Joined(outs + [o]) == Joined(outs) + (if o.Text? then o.text else [])
  {
    assert (outs + [o])[..|outs|] == outs;
  }

  /** Nothing waits, so the text so far is all of it. */
  lemma PlainDelivered(c: Cell, outs: seq<Outcome>)
    requires LiveHistory(c, outs) && c.loaded == |c.blob| && c.errored.None? && !c.leaseReleased
    requires EofOutcome(c) == Done
    ensures DeliveredBy(EofCell(c), outs) && Closing(EofCell(c)) == Done
  {
    hide BytesSoFar;
    assert c.blob[..c.loaded] == c.blob;
    BytesSame(c, EofCell(c), outs);
    if c.mode.TextMode? {
      Utf8.NoneWaiting(c.blob);
    }
  }

  /** EOF with nothing left to flush closes with plain dones. */
  lemma EofHistoryPlain(c: Cell, outs: seq<Outcome>, n: nat)
    requires LiveHistory(c, outs) && c.loaded == |c.blob| && c.errored.None? && !c.leaseReleased
    requires EofOutcome(c) == Done
    ensures DeadHistory(EofCell(c), outs + [Done] + Repeat(Done, n))
  {
    hide LiveHistory, DeadHistory, DeliveredBy, EofOutcome;
    LiveIsData(c, outs);
    PlainDelivered(c, outs);
    ClosedAfter(EofCell(c), outs, n + 1);
    assert outs + [Done] + Repeat(Done, n) == outs + Repeat(Done, n + 1);
  }

  lemma TailDelivered(c: Cell, outs: seq<Outcome>)
    requires LiveHistory(c, outs) && c.loaded == |c.blob| && c.errored.None? && !c.leaseReleased
    requires c.mode.TextMode? && c.pending != []
    ensures DeliveredBy(EofCell(c), outs + [EofOutcome(c)]) && Closing(EofCell(c)) == Done
  {
    hide BytesSoFar, Utf8.Lossy, Utf8.Settled, Utf8.Waiting;
    assert c.blob[..c.loaded] == c.blob;
    JoinedAppend(outs, EofOutcome(c));
  }

  /** EOF with bytes still waiting delivers them as one last text. */
  lemma EofHistoryTail(c: Cell, outs: seq<Outcome>, n: nat)
    requires LiveHistory(c, outs) && c.loaded == |c.blob| && c.errored.None? && !c.leaseReleased
    requires c.mode.TextMode? && c.pending != []
    ensures DeadHistory(EofCell(c), outs + [EofOutcome(c)] + Repeat(Done, n))
  {
    hide LiveHistory, DeadHistory, DeliveredBy;
    var data := outs + [EofOutcome(c)];
    LiveIsData(c, outs);
    TailDelivered(c, outs);
    ClosedAfter(EofCell(c), data, n);
  }

  lemma EofHistory(c: Cell, outs: seq<Outcome>, n: nat)
    requires LiveHistory(c, outs) && c.loaded == |c.blob| && c.errored.None? && !c.leaseReleased
    ensures DeadHistory(EofCell(c), outs + [EofOutcome(c)] + Repeat(Done, n))
  {
    if IsData(EofOutcome(c)) {
      EofHistoryTail(c, outs, n);
    } else {
      EofHistoryPlain(c, outs, n);
    }
  }

  lemma SettleEofKeeps(w: World, batch: seq<ChunkCompletion>, op: nat, number: nat, read: PendingRead)
    requires AllBut(w, batch, op) && LiveCore(w, batch, op, [number])
    requires w.s.cells[op].loaded == |w.s.cells[op].blob| && read.mode == w.s.cells[op].mode
    ensures StreamInv(SettleEof(w, op, number, read), batch)
  {
    var c := w.s.cells[op];
    LiveDrainable(w, batch, op, [number]);
    SettleEofForm(w, op, number, read);
    EofHistory(c, Outs(w.s.log, op), |c.queue|);
    EndKeeps(w, batch, op, [number], EofCell(c), w.s.errors, [Settlement(op, number, EofOutcome(c))], Done);
  }

  function CancelledCell(c: Cell): Cell {
    c.(cancelled := true, hasData := false, inFlight := false, generation := c.generation + 1,
       leaseTerminal := true, leaseReleased := true, queue := [])
  }

  lemma CancelForm(w: World, op: nat)
    requires Drainable(w, op) && !w.s.cells[op].leaseTerminal
    ensures CancelShared(w, op) == End(w, op, CancelledCell(w.s.cells[op]), w.s.errors, [], Done)
  {
    var c := w.s.cells[op];
    var marked := c.(cancelled := true, hasData := false, inFlight := false,
                     generation := c.generation + 1, leaseTerminal := true);
    var w1 := CancelMarked(w, op);
    SettleSlotsForm(EmptyQueue(w1, op), op, c.queue, Done);
    var w2 := CancelDrained(w1, op);
    ReleaseForm(w2, op);
    UpdateTwice(w.s.cells, op, marked, marked.(queue := []));
    UpdateTwice(w.s.cells, op, marked.(queue := []), CancelledCell(c));
    assert w.s.log + [] == w.s.log;
  }

  lemma CancelSharedKeeps(w: World, batch: seq<ChunkCompletion>, op: nat)
    requires StreamInv(w, batch) && op in w.s.ops && op in w.s.cells
    ensures StreamInv(CancelShared(w, op), batch)
  {
    var c := w.s.cells[op];
    assert Local(w, batch, op);
    LiveDrainable(w, batch, op, []);
    CancelForm(w, op);
    var outs := Outs(w.s.log, op);
    CloseHistory(c, CancelledCell(c), outs, |c.queue|);
    assert outs + [] == outs;
    EndKeeps(w, batch, op, [], CancelledCell(c), w.s.errors, [], Done);
  }

  function AbandonedCell(c: Cell): Cell {
    c.(leaseTerminal := true, leaseReleased := true, hasData := false, inFlight := false,
       generation := c.generation + 1)
  }

  lemma AbandonForm(w: World, op: nat)
    requires Drainable(w, op) && Abandonable(w.s.cells[op])
    ensures TryAbandon(w, op) == End(w, op, AbandonedCell(w.s.cells[op]), w.s.errors, [], Done)
  {
    var c := w.s.cells[op];
    var marked := c.(leaseTerminal := true, hasData := false, inFlight := false, generation := c.generation + 1);
    assert w.s.demands - Keys(op, c.queue) == w.s.demands;
    ReleaseForm(WithCell(w, op, marked), op);
    UpdateTwice(w.s.cells, op, marked, AbandonedCell(c));
    assert w.s.log + [] + Same(op, c.queue, Done) == w.s.log;
  }

  lemma TryAbandonKeeps(w: World, batch: seq<ChunkCompletion>, op: nat)
    requires StreamInv(w, batch)
    ensures StreamInv(TryAbandon(w, op), batch)
  {
    assert Local(w, batch, op);
    if op in w.s.ops && op in w.s.cells && Abandonable(w.s.cells[op]) {
      var c := w.s.cells[op];
      LiveDrainable(w, batch, op, []);
      AbandonForm(w, op);
      var outs := Outs(w.s.log, op);
      CloseHistory(c, AbandonedCell(c), outs, 0);
      assert outs + [] + Repeat(Done, |c.queue|) == outs + Repeat(Done, 0);
      EndKeeps(w, batch, op, [], AbandonedCell(c), w.s.errors, [], Done);
    }
  }

  // ------------------------------------------------------- demand and requests

  /** The oldest demand taken in hand, its resolvers out of the table. */
  function Popped(w: World, op: nat): World
    requires op in w.s.cells && w.s.cells[op].queue != []
  {
    var c := w.s.cells[op];
    var w1 := WithCell(w, op, c.(inFlight := false, queue := c.queue[1..]));
    w1.(s := w1.s.(demands := w1.s.demands - {ReadKey(op, c.queue[0])}))
  }

  lemma PopElsewhere(w: World, batch: seq<ChunkCompletion>, op: nat, batch': seq<ChunkCompletion>, x: nat)
    requires op in w.s.cells && w.s.cells[op].queue != [] && x != op && Of(batch', x) == Of(batch, x)
    ensures SameAt(w, batch, Popped(w, op), batch', x)
  {
  }

  lemma PopOthers(w: World, batch: seq<ChunkCompletion>, op: nat, batch': seq<ChunkCompletion>)
    requires AllBut(w, batch, op) && op in w.s.cells && w.s.cells[op].queue != []
    requires forall x :: x != op ==> Of(batch', x) == Of(batch, x)
    ensures AllBut(Popped(w, op), batch', op)
  {
    EndpointsKept(w.s, Popped(w, op).s);
    forall x | x != op ensures SameAt(w, batch, Popped(w, op), batch', x) {
      PopElsewhere(w, batch, op, batch', x);
    }
    MoveAllBut(w, batch, Popped(w, op), batch', op);
  }

  lemma QueuePop(before: seq<nat>, queue: seq<nat>, n: nat)
    requires before + [] + queue == Upto(n) && queue != []
    ensures before + [queue[0]] + queue[1..] == Upto(n)
    ensures forall m :: m in queue[1..] <==> m in queue && m != queue[0]
  {
    assert before + [] == before;
    QueueIncreasing(before, queue, n);
    assert before + [queue[0]] + queue[1..] == before + queue;
  }

  lemma PopDemands(w: World, op: nat)
    requires op in w.s.cells && w.s.cells[op].queue != [] && DemandsOk(w, op, [])
    ensures DemandsOk(Popped(w, op), op, [w.s.cells[op].queue[0]])
    ensures ReadKey(op, w.s.cells[op].queue[0]) in w.s.demands
    ensures w.s.demands[ReadKey(op, w.s.cells[op].queue[0])] == PendingRead(w.s.cells[op].mode, 1)
  {
    var c := w.s.cells[op];
    QueuePop(Numbers(w.s.log, op), c.queue, c.nextSeq);
    assert c.queue[0] in c.queue;
  }

  lemma PopOwn(w: World, batch: seq<ChunkCompletion>, op: nat, batch': seq<ChunkCompletion>)
    requires LiveCore(w, batch, op, []) && w.s.cells[op].queue != []
    requires Work(w, batch', op) == 0
    ensures LiveCore(Popped(w, op), batch', op, [w.s.cells[op].queue[0]])
  {
    PopDemands(w, op);
    assert TasksOf(w.s.tasks, op) == [] && At(w.b, op).streamQ == [] && Of(batch', op) == [];
  }

  /** An idle live cell with demand and a refused submit goes down the error path. */
  lemma FailFromSubmitKeeps(w: World, batch: seq<ChunkCompletion>, op: nat, error: SubmitError)
    requires AllBut(w, batch, op) && LiveCore(w, batch, op, []) && !w.s.cells[op].inFlight
    requires w.s.cells[op].queue != []
    ensures StreamInv(FailFromSubmit(w, op, error), batch)
  {
    PopOthers(w, batch, op, batch);
    PopOwn(w, batch, op, batch);
    FailWithKeeps(Popped(w, op), batch, op, w.s.cells[op].queue[0], SubmitFailure(error));
  }

  function Submitted(w: World, op: nat): World
    requires op in w.s.cells && w.s.cells[op].loaded <= |w.s.cells[op].blob|
  {
    var c := w.s.cells[op];
    w.(s := w.s.(cells := w.s.cells[op := c.(inFlight := true)], tasks := w.s.tasks + [NextTask(c, op)]))
  }

  lemma SubmittedTasks(w: World, op: nat, x: nat)
    requires op in w.s.cells && w.s.cells[op].loaded <= |w.s.cells[op].blob|
    ensures TasksOf(Submitted(w, op).s.tasks, x)
         == TasksOf(w.s.tasks, x) + (if x == op then [NextTask(w.s.cells[op], op)] else [])
  {
    var t := NextTask(w.s.cells[op], op);
    PickedAppend(w.s.tasks, t, TaskOp, x);
  }

  lemma SubmittedOthers(w: World, batch: seq<ChunkCompletion>, op: nat)
    requires AllBut(w, batch, op) && op in w.s.cells && w.s.cells[op].loaded <= |w.s.cells[op].blob|
    ensures AllBut(Submitted(w, op), batch, op)
  {
    forall x | x != op ensures SameAt(w, batch, Submitted(w, op), batch, x) {
      SubmittedTasks(w, op, x);
    }
    EndpointsKept(w.s, Submitted(w, op).s);
    MoveAllBut(w, batch, Submitted(w, op), batch, op);
  }

  lemma SubmittedOwn(w: World, batch: seq<ChunkCompletion>, op: nat)
    requires LiveCore(w, batch, op, []) && !w.s.cells[op].inFlight
    requires w.s.cells[op].queue != [] && At(w.b, op).live
    ensures LiveOk(Submitted(w, op), batch, op)
  {
    SubmittedTasks(w, op, op);
  }

  lemma SubmitForm(w: World, op: nat, submit: Option<SubmitError>)
    requires RootOk(w, op) && !w.s.cells[op].inFlight && w.s.cells[op].queue != []
    requires w.s.cells[op].loaded <= |w.s.cells[op].blob|
    ensures SubmitOrFail(w, op, submit)
         == if submit.Some? then FailFromSubmit(w, op, submit.value) else Submitted(w, op)
    ensures Continue(w, op, submit) == SubmitOrFail(w, op, submit) || submit.None?
  {
  }

  /** One idle live cell with demand: one request goes out, or the stream fails. */
  lemma SubmitKeeps(w: World, batch: seq<ChunkCompletion>, op: nat, submit: Option<SubmitError>)
    requires AllBut(w, batch, op) && LiveCore(w, batch, op, []) && !w.s.cells[op].inFlight
    requires w.s.cells[op].queue != [] && At(w.b, op).live
    ensures StreamInv(SubmitOrFail(w, op, submit), batch)
  {
    SubmitForm(w, op, submit);
    if submit.Some? {
      FailFromSubmitKeeps(w, batch, op, submit.value);
    } else {
      SubmittedOthers(w, batch, op);
      SubmittedOwn(w, batch, op);
      Whole(Submitted(w, op), batch, op);
    }
  }

  lemma NoDemandLeft(w: World, batch: seq<ChunkCompletion>, op: nat)
    requires LiveCore(w, batch, op, [])
    ensures HasDemand(w.s.demands, op) <==> w.s.cells[op].queue != []
  {
    var c := w.s.cells[op];
    if k :| k in w.s.demands && k.op == op {
      assert k == ReadKey(op, k.number);
    }
    if c.queue != [] {
      assert ReadKey(op, c.queue[0]) in w.s.demands;
    }
  }

  lemma ProbeCleared(w: World, batch: seq<ChunkCompletion>, op: nat)
    requires AllBut(w, batch, op) && LiveCore(w, batch, op, []) && !w.s.cells[op].inFlight
    requires w.s.cells[op].queue == []
    ensures StreamInv(w.(b := SetLiveDemand(w.b, op, false)), batch)
  {
    var w' := w.(b := SetLiveDemand(w.b, op, false));
    SetLiveDemandKeeps(w.b, op, false);
    MoveAllBut(w, batch, w', batch, op);
    assert LiveOk(w', batch, op);
    Whole(w', batch, op);
  }

  /** After a settled demand: the next request goes out, or the probe clears. */
  lemma ContinueKeeps(w: World, batch: seq<ChunkCompletion>, op: nat, submit: Option<SubmitError>)
    requires AllBut(w, batch, op) && LiveCore(w, batch, op, []) && !w.s.cells[op].inFlight
    requires At(w.b, op).live
    ensures StreamInv(Continue(w, op, submit), batch)
  {
    NoDemandLeft(w, batch, op);
    if w.s.cells[op].queue != [] {
      SubmitKeeps(w, batch, op, submit);
    } else {
      ProbeCleared(w, batch, op);
    }
  }
}
