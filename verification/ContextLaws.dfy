/**
  The invariant of a whole context: the three clients' invariants side by side,
  and every slot of the bridge accounted for by exactly one of them.
*/
module ContextLaws {
  import opened Common
  import opened Bridge
  import opened Context
  import P = Promises
  import R = Readers
  import RF = ReaderFoot
  import RL = ReaderLaws
  import S = Streams
  import SF = StreamFoot
  import SL = StreamLaws

  function ReaderBatch(phase: Phase): seq<ChunkCompletion> {
    if phase.ReaderDrain? then phase.reader else []
  }

  function StreamBatch(phase: Phase): seq<ChunkCompletion> {
    if phase.StreamDrain? then phase.stream else []
  }

  function WholeBatch(phase: Phase): seq<WholeCompletion> {
    if phase.WholeDrain? then phase.whole else []
  }

  /** `all` is the disjoint union of `a`, `b` and `c`. */
  ghost predicate Splits(all: set<nat>, a: set<nat>, b: set<nat>, c: set<nat>) {
    forall y ::
      && (y in all <==> y in a || y in b || y in c)
      && !(y in a && y in b) && !(y in a && y in c) && !(y in b && y in c)
  }

  lemma SplitsAsSets(all: set<nat>, a: set<nat>, b: set<nat>, c: set<nat>)
    requires Splits(all, a, b, c)
    ensures all == a + b + c && a !! b && a !! c && b !! c
    ensures |all| == |a| + |b| + |c|
  {
    assert a + b !! c;
  }

  /** The bridge's slots are the disjoint union of what the three clients hold. */
  ghost predicate SlotsMatch(x: Sys) {
    Splits(x.b.tokens, x.p.pending, x.f.pending.Keys, x.s.ops.Keys)
  }

  ghost predicate Running(x: Sys, busy: Option<nat>) {
    && P.PromiseInv(Desk(x), WholeBatch(x.phase))
    && RL.Live(Room(x), ReaderBatch(x.phase), busy)
    && SL.StreamInv(World(x), StreamBatch(x.phase))
    && SlotsMatch(x)
  }

  /** After shutdown: nothing is held, no trace was broken, nothing is being polled. */
  ghost predicate Stopped(x: Sys) {
    && Valid(x.b) && x.b.shutdown
    && x.f.pending == map[] && x.s.ops == map[]
    && (forall g :: !RL.PhaseOf(x.f.log, g).Broken?)
    && RL.PublishedOk(x.f)
    && ReaderBatch(x.phase) == [] && StreamBatch(x.phase) == [] && WholeBatch(x.phase) == []
  }

  ghost predicate SysInv(x: Sys, busy: Option<nat>) {
    if x.b.shutdown then Stopped(x) else Running(x, busy)
  }

  // ---------------------------------------------------------------- assembling

  /** What a client's step must say about the slots it touched. */
  ghost predicate SlotsFollow(b: BridgeState, b': BridgeState, ids: set<nat>, held: set<nat>, held': set<nat>) {
    && ids <= held
    && (forall y :: y in held' ==> y in b'.tokens && (y in held || b.next <= y))
    && (forall y :: y in b'.tokens && (y in ids || b.next <= y) ==> y in held')
    && (forall y :: y in held && y !in ids ==> y in held')
  }

  lemma SlotsKept(b: BridgeState, b': BridgeState, ids: set<nat>, held: set<nat>, held': set<nat>,
                  u: set<nat>, v: set<nat>)
    requires FootAt(b, b', ids) && SlotsFollow(b, b', ids, held, held')
    requires Splits(b.tokens, held, u, v)
    ensures Splits(b'.tokens, held', u, v)
  {
    forall y: nat | y in u || y in v ensures y in b'.tokens && y !in held' {
      assert y in b.tokens && y !in ids && 0 < y < b.next;
      assert At(b', y) == At(b, y) && At(b, y).token;
    }
    forall y: nat | y in b'.tokens && y !in ids && y < b.next ensures y in b.tokens {
    }
  }

  /** Ids of one client are never ids another client remembers. */
  lemma ApartFromReaders(m: R.Room, batch: seq<ChunkCompletion>, busy: Option<nat>, b': BridgeState, ids: set<nat>)
    requires RL.Live(m, batch, busy) && FootAt(m.b, b', ids) && ids !! m.f.pending.Keys
    ensures RL.Live(R.Room(b', m.f), batch, busy)
  {
    forall y | y in m.f.pending ensures At(b', y) == At(m.b, y) {
      assert RL.OpLocal(m, batch, busy, y);
      assert RL.RootOk(m, y);
    }
    RL.OtherClientMoved(m, b', batch, busy);
  }

  lemma ApartFromStreams(w: S.World, batch: seq<ChunkCompletion>, b': BridgeState, ids: set<nat>)
    requires SL.StreamInv(w, batch) && FootAt(w.b, b', ids) && ids !! w.s.ops.Keys && ids <= w.b.tokens
    ensures SL.StreamInv(S.World(b', w.s), batch)
  {
    forall y | y in w.s.cells ensures At(b', y) == At(w.b, y) {
      assert SL.Local(w, batch, y);
    }
    SL.OtherClientMoved(w, b', batch);
  }

  lemma ApartFromPromises(d: P.Desk, batch: seq<WholeCompletion>, b': BridgeState, ids: set<nat>)
    requires P.PromiseInv(d, batch) && Foot(d.b, b', ids) && ids !! d.p.pending
    ensures P.PromiseInv(P.Desk(b', d.p), batch)
  {
    forall y | y in d.p.pending ensures At(b', y) == At(d.b, y) {
      assert P.Local(d, batch, y);
    }
    FootYounger(d.b, b', ids, LastOr(P.LogIds(d.p.log) + P.BatchIds(batch), 0));
    P.OtherClientMoved(d, b', batch);
  }

  lemma Turned(all: set<nat>, a: set<nat>, b: set<nat>, c: set<nat>)
    ensures Splits(all, a, b, c) <==> Splits(all, b, a, c)
    ensures Splits(all, a, b, c) <==> Splits(all, c, a, b)
  {
  }

  lemma DeskSlots(x: Sys, d: P.Desk, ids: set<nat>)
    requires SlotsMatch(x) && FootAt(x.b, d.b, ids) && SlotsFollow(x.b, d.b, ids, x.p.pending, d.p.pending)
    ensures SlotsMatch(WithDesk(x, d))
  {
    SlotsKept(x.b, d.b, ids, x.p.pending, d.p.pending, x.f.pending.Keys, x.s.ops.Keys);
  }

  lemma RoomSlots(x: Sys, m: R.Room, ids: set<nat>)
    requires SlotsMatch(x) && FootAt(x.b, m.b, ids) && SlotsFollow(x.b, m.b, ids, x.f.pending.Keys, m.f.pending.Keys)
    ensures SlotsMatch(WithRoom(x, m))
  {
    Turned(x.b.tokens, x.p.pending, x.f.pending.Keys, x.s.ops.Keys);
    SlotsKept(x.b, m.b, ids, x.f.pending.Keys, m.f.pending.Keys, x.p.pending, x.s.ops.Keys);
    Turned(m.b.tokens, x.p.pending, m.f.pending.Keys, x.s.ops.Keys);
  }

  lemma WorldSlots(x: Sys, w: S.World, ids: set<nat>)
    requires SlotsMatch(x) && FootAt(x.b, w.b, ids) && SlotsFollow(x.b, w.b, ids, x.s.ops.Keys, w.s.ops.Keys)
    ensures SlotsMatch(WithWorld(x, w))
  {
    Turned(x.b.tokens, x.p.pending, x.f.pending.Keys, x.s.ops.Keys);
    SlotsKept(x.b, w.b, ids, x.s.ops.Keys, w.s.ops.Keys, x.p.pending, x.f.pending.Keys);
    Turned(w.b.tokens, x.p.pending, x.f.pending.Keys, w.s.ops.Keys);
  }

  /** Slots of one client, disjoint from the others'. */
  lemma Apart(x: Sys, ids: set<nat>)
    requires SlotsMatch(x)
    ensures ids <= x.p.pending ==> ids !! x.f.pending.Keys && ids !! x.s.ops.Keys && ids <= x.b.tokens
    ensures ids <= x.f.pending.Keys ==> ids !! x.p.pending && ids !! x.s.ops.Keys && ids <= x.b.tokens
    ensures ids <= x.s.ops.Keys ==> ids !! x.p.pending && ids !! x.f.pending.Keys && ids <= x.b.tokens
  {
  }

  /** A promise step, seen from the whole context. */
  lemma DeskStep(x: Sys, busy: Option<nat>, d: P.Desk, phase: Phase, ids: set<nat>)
    requires Running(x, busy) && P.PromiseInv(d, WholeBatch(phase))
    requires ReaderBatch(phase) == ReaderBatch(x.phase) && StreamBatch(phase) == StreamBatch(x.phase)
    requires FootAt(x.b, d.b, ids) && SlotsFollow(x.b, d.b, ids, x.p.pending, d.p.pending)
    ensures Running(WithDesk(x, d).(phase := phase), busy)
  {
    DeskSlots(x, d, ids);
    Apart(x, ids);
    ApartFromReaders(Room(x), ReaderBatch(x.phase), busy, d.b, ids);
    ApartFromStreams(World(x), StreamBatch(x.phase), d.b, ids);
  }

  lemma RoomStep(x: Sys, busy: Option<nat>, m: R.Room, busy': Option<nat>, phase: Phase, ids: set<nat>)
    requires Running(x, busy) && RL.Live(m, ReaderBatch(phase), busy')
    requires WholeBatch(phase) == WholeBatch(x.phase) && StreamBatch(phase) == StreamBatch(x.phase)
    requires Foot(x.b, m.b, ids) && SlotsFollow(x.b, m.b, ids, x.f.pending.Keys, m.f.pending.Keys)
    ensures Running(WithRoom(x, m).(phase := phase), busy')
  {
    RoomSlots(x, m, ids);
    Apart(x, ids);
    ApartFromPromises(Desk(x), WholeBatch(x.phase), m.b, ids);
    ApartFromStreams(World(x), StreamBatch(x.phase), m.b, ids);
  }

  lemma WorldStep(x: Sys, busy: Option<nat>, w: S.World, phase: Phase, ids: set<nat>)
    requires Running(x, busy) && SL.StreamInv(w, StreamBatch(phase))
    requires ReaderBatch(phase) == ReaderBatch(x.phase) && WholeBatch(phase) == WholeBatch(x.phase)
    requires Foot(x.b, w.b, ids) && SlotsFollow(x.b, w.b, ids, x.s.ops.Keys, w.s.ops.Keys)
    ensures Running(WithWorld(x, w).(phase := phase), busy)
  {
    WorldSlots(x, w, ids);
    Apart(x, ids);
    ApartFromReaders(Room(x), ReaderBatch(x.phase), busy, w.b, ids);
    ApartFromPromises(Desk(x), WholeBatch(x.phase), w.b, ids);
  }

  // ------------------------------------------------- steps about one operation

  /** A FileReader step about operation `op`; about no operation when `op` is not one of theirs. */
  lemma RoomWithin(x: Sys, busy: Option<nat>, m: R.Room, busy': Option<nat>, phase: Phase, op: nat)
    requires Running(x, busy) && RL.Live(m, ReaderBatch(phase), busy') && RF.Within(Room(x), m, op)
    requires WholeBatch(phase) == WholeBatch(x.phase) && StreamBatch(phase) == StreamBatch(x.phase)
    requires op in x.f.pending || m.b == x.b
    ensures Running(WithRoom(x, m).(phase := phase), busy')
  {
    var ids := if op in x.f.pending then {op} else {};
    ReaderHeld(m, ReaderBatch(phase), busy');
    WithinFollows(Room(x), m, op, ids);
    RoomStep(x, busy, m, busy', phase, ids);
  }

  lemma WithinFollows(m: R.Room, m': R.Room, op: nat, ids: set<nat>)
    requires RF.Within(m, m', op) && (op in m.f.pending || m'.b == m.b)
    requires ids == if op in m.f.pending then {op} else {}
    requires forall y :: y in m'.f.pending ==> y in m'.b.tokens
    ensures Foot(m.b, m'.b, ids) && SlotsFollow(m.b, m'.b, ids, m.f.pending.Keys, m'.f.pending.Keys)
  {
    if op !in m.f.pending {
      FootSame(m.b, {});
    }
  }

  lemma ReaderHeld(m: R.Room, batch: seq<ChunkCompletion>, busy: Option<nat>)
    requires RL.Live(m, batch, busy)
    ensures forall y :: y in m.f.pending ==> y in m.b.tokens
  {
    forall y | y in m.f.pending ensures y in m.b.tokens {
      assert RL.OpLocal(m, batch, busy, y);
      assert RL.RootOk(m, y) && At(m.b, y).token;
    }
  }

  /** Live streams hold a slot, ended ones do not. */
  lemma StreamHeld(w: S.World, batch: seq<ChunkCompletion>)
    requires SL.StreamInv(w, batch)
    ensures forall y :: y in w.s.ops ==> y in w.s.cells && y in w.b.tokens
    ensures forall y :: y in w.s.cells && y !in w.s.ops ==> y !in w.b.tokens
  {
    forall y: nat
      ensures y in w.s.ops ==> y in w.s.cells && y in w.b.tokens
      ensures y in w.s.cells && y !in w.s.ops ==> y !in w.b.tokens
    {
      assert SL.Local(w, batch, y);
      assert At(w.b, y).token <==> y in w.b.tokens;
    }
  }

  /** A stream step about the live operations `ids`. */
  lemma WorldWithin(x: Sys, busy: Option<nat>, w: S.World, phase: Phase, ids: set<nat>)
    requires Running(x, busy) && SL.StreamInv(w, StreamBatch(phase)) && SF.Within(World(x), w, ids)
    requires ReaderBatch(phase) == ReaderBatch(x.phase) && WholeBatch(phase) == WholeBatch(x.phase)
    requires ids <= x.s.ops.Keys
    ensures Running(WithWorld(x, w).(phase := phase), busy)
  {
    StreamHeld(World(x), StreamBatch(x.phase));
    StreamHeld(w, StreamBatch(phase));
    WorldStep(x, busy, w, phase, ids);
  }
}
