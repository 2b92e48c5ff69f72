/**
  The per-context completion bridge: quota, submission order, per-operation
  queues. `BridgeState` and the functions over it say what each critical
  section does; class `IoBridge` (file IoBridge.dfy) does it step by step.
*/
module Bridge {
  import opened Common

  /** Answer of a whole-blob worker (`text()`, `arrayBuffer()`, `bytes()`). */
  datatype WholeCompletion = WholeCompletion(op: nat, result: Result<seq<Byte>, FileApiError>)

  datatype ChunkKind = Chunk(bytes: seq<Byte>) | Eof | Failed(error: FileApiError)

  /** Answer of a FileReader or stream chunk worker. */
  datatype ChunkCompletion = ChunkCompletion(op: nat, generation: nat, kind: ChunkKind)

  /** Why the executor refuses a task. */
  datatype SubmitError = WorkerLost | QueueFullSubmit | ShutdownSubmit

  function SubmitFailure(error: SubmitError): FileApiError {
    if error.WorkerLost? then Internal else TooManyReads
  }

  /**
    What `execute` answers for a request of `len` bytes at `offset`; `failure`
    is a source error, a panic or a cancellation.
  */
  function ChunkAnswer(blob: seq<Byte>, offset: nat, len: nat, failure: Option<FileApiError>): ChunkKind {
    if failure.Some? then Failed(failure.value)
    else if offset == |blob| then Eof
    else
      var end := Min(offset + len, |blob|);
      if end <= offset then Failed(InvalidRange) else Chunk(blob[offset..end])
  }

  datatype ReserveError = QuotaFull | CompletionFull | Shutdown

  datatype BridgeState = BridgeState(
    limit: nat,
    cap: nat,
    next: nat,
    exhausted: bool,
    active: nat,
    completions: map<nat, WholeCompletion>,
    completed: set<nat>,
    order: seq<nat>,
    tokens: set<nat>,
    liveDemand: set<nat>,
    readerQueues: map<nat, seq<ChunkCompletion>>,
    streamQueues: map<nat, seq<ChunkCompletion>>,
    chunkMarks: set<nat>,
    shutdown: bool)

  function Init(concurrency: nat): (b: BridgeState)
    ensures Valid(b)
  {
    var limit := Max(concurrency, 1);
    BridgeState(limit, Max(2 * limit, 64), 1, false, 0,
                map[], {}, [], {}, {}, map[], map[], {}, false)
  }

  function QueueOf(queues: map<nat, seq<ChunkCompletion>>, id: nat): seq<ChunkCompletion> {
    if id in queues then queues[id] else []
  }

  // ---------------------------------------------------------------- invariant

  ghost predicate QueuesNamed(queues: map<nat, seq<ChunkCompletion>>) {
    forall id, k :: id in queues && 0 <= k < |queues[id]| ==> queues[id][k].op == id
  }

  /** What every critical section keeps. */
  ghost predicate Valid(b: BridgeState) {
    && 1 <= b.limit && 2 * b.limit <= b.cap
    && 1 <= b.next <= U64_MAX
    && b.active == |b.tokens| <= b.limit
    && (forall id :: id in b.tokens ==> 0 < id < b.next)
    && b.completed == b.completions.Keys && b.completed <= b.tokens
    && (forall id :: id in b.completions ==> b.completions[id].op == id)
    && Increasing(b.order) && (forall id :: id in b.order ==> id in b.tokens)
    && b.liveDemand <= b.tokens && b.chunkMarks <= b.tokens
    && b.readerQueues.Keys <= b.tokens && b.streamQueues.Keys <= b.tokens
    && QueuesNamed(b.readerQueues) && QueuesNamed(b.streamQueues)
    && (b.shutdown ==> b.tokens == {})
  }

  /** Everything the bridge knows about one operation id. */
  datatype View = View(
    token: bool, ordered: bool, whole: Option<WholeCompletion>, marked: bool, live: bool,
    readerQ: seq<ChunkCompletion>, streamQ: seq<ChunkCompletion>)

  const NO_VIEW := View(false, false, None, false, false, [], [])
  const FRESH_VIEW := View(true, true, None, false, false, [], [])

  function At(b: BridgeState, id: nat): View {
    View(id in b.tokens, id in b.order,
         if id in b.completions then Some(b.completions[id]) else None,
         id in b.chunkMarks, id in b.liveDemand,
         QueueOf(b.readerQueues, id), QueueOf(b.streamQueues, id))
  }

  lemma NoTokenNoView(b: BridgeState, id: nat)
    requires Valid(b) && id !in b.tokens
    ensures At(b, id) == NO_VIEW
  {
  }

  // ------------------------------------------------------------- reservations

  function Reserve(b: BridgeState): (BridgeState, Result<nat, ReserveError>) {
    if b.shutdown then (b, Err(ReserveError.Shutdown))
    else if b.exhausted then (b, Err(QuotaFull))
    else if b.active >= b.limit then (b, Err(QuotaFull))
    else if |b.completed| >= b.cap then (b, Err(CompletionFull))
    else if b.next == 0 || b.next == U64_MAX then
      (b.(next := U64_MAX, exhausted := true), Err(QuotaFull))
    else
      if b.next in b.tokens || b.next in b.completed then
        (b.(next := b.next + 1, exhausted := true), Err(QuotaFull))
      else (Granted(b), Ok(b.next))
  }

  /** The state after id `b.next` is handed out. */
  function Granted(b: BridgeState): BridgeState {
    b.(next := b.next + 1, tokens := b.tokens + {b.next}, order := b.order + [b.next], active := b.active + 1)
  }

  /**
    A reservation succeeds exactly when the runtime is open, ids remain and a
    slot is free: the full-completion-queue and duplicate-id refusals are dead.
  */
  lemma ReserveOutcome(b: BridgeState)
    requires Valid(b)
    ensures var (b', r) := Reserve(b);
      && (r.Ok? <==> !b.shutdown && !b.exhausted && b.active < b.limit && b.next != U64_MAX)
      && (r.Ok? ==> r.value == b.next && b' == Granted(b))
      && (r.Err? ==> b' == b || b' == b.(exhausted := true))
      && r != Err(CompletionFull)
  {
    CompletedFits(b);
    assert b.next !in b.tokens;
  }

  lemma GrantedViews(b: BridgeState)
    requires Valid(b)
    ensures At(Granted(b), b.next) == FRESH_VIEW
    ensures forall id :: id != b.next ==> At(Granted(b), id) == At(b, id)
  {
    NoTokenNoView(b, b.next);
  }

  lemma GrantedValid(b: BridgeState)
    requires Valid(b) && !b.shutdown && b.active < b.limit && b.next != U64_MAX
    ensures Valid(Granted(b))
  {
    assert b.next !in b.tokens;
    IncreasingConcat(b.order, [b.next]);
  }

  lemma ReserveKeeps(b: BridgeState)
    requires Valid(b)
    ensures var (b', r) := Reserve(b);
      && Valid(b')
      && (r.Ok? ==>
            && r.value == b.next == b'.next - 1
            && r.value !in b.tokens && b'.tokens == b.tokens + {r.value}
            && At(b', r.value) == FRESH_VIEW
            && (forall id :: id != r.value ==> At(b', id) == At(b, id)))
      && (r.Err? ==> b' == b || b' == b.(exhausted := true))
      && b'.shutdown == b.shutdown && b'.limit == b.limit
  {
    ReserveOutcome(b);
    if Reserve(b).1.Ok? {
      GrantedViews(b);
      GrantedValid(b);
    }
  }

  /** Completions never fill the queue: each one belongs to a held slot. */
  lemma CompletedFits(b: BridgeState)
    requires Valid(b)
    ensures |b.completed| <= b.active <= b.limit < b.cap
  {
    SubsetSize(b.completed, b.tokens);
  }

  lemma SubsetSize(a: set<nat>, b: set<nat>)
    requires a <= b
    ensures |a| <= |b|
  {
    assert b == a + (b - a);
  }

  function Unreserve(b: BridgeState, id: nat): (BridgeState, bool) {
    if id !in b.tokens then (b, false)
    else
      (b.(tokens := b.tokens - {id},
          completed := b.completed - {id}, completions := b.completions - {id},
          readerQueues := b.readerQueues - {id}, streamQueues := b.streamQueues - {id},
          liveDemand := b.liveDemand - {id}, chunkMarks := b.chunkMarks - {id},
          order := Without(b.order, {id}),
          active := if b.active == 0 then 0 else b.active - 1), true)
  }

  lemma UnreserveKeeps(b: BridgeState, id: nat)
    requires Valid(b)
    ensures var (b', released) := Unreserve(b, id);
      && Valid(b')
      && (released <==> id in b.tokens)
      && b'.tokens == b.tokens - {id}
      && b'.active == (if released then b.active - 1 else b.active)
      && At(b', id) == NO_VIEW
      && (forall x :: x != id ==> At(b', x) == At(b, x))
      && b'.shutdown == b.shutdown && b'.limit == b.limit && b'.next == b.next
  {
    WithoutIncreasing(b.order, {id});
  }

  /** Releasing twice never takes a neighbour's slot. */
  lemma ReleaseTwiceIsOnce(b: BridgeState, id: nat)
    requires Valid(b)
    ensures Unreserve(Unreserve(b, id).0, id) == (Unreserve(b, id).0, false)
  {
  }

  function SetLiveDemand(b: BridgeState, id: nat, live: bool): BridgeState {
    if id !in b.tokens then b
    else if live then b.(liveDemand := b.liveDemand + {id})
    else b.(liveDemand := b.liveDemand - {id})
  }

  lemma SetLiveDemandKeeps(b: BridgeState, id: nat, live: bool)
    requires Valid(b)
    ensures var b' := SetLiveDemand(b, id, live);
      && Valid(b') && b'.tokens == b.tokens
      && At(b', id) == At(b, id).(live := live && id in b.tokens)
      && (forall x :: x != id ==> At(b', x) == At(b, x))
      && b' == b.(liveDemand := b'.liveDemand)
  {
  }

  // -------------------------------------------------------- whole-blob queue

  function PushWhole(b: BridgeState, c: WholeCompletion): BridgeState {
    if b.shutdown || c.op !in b.tokens || c.op in b.completed || |b.completed| >= b.cap then b
    else b.(completions := b.completions[c.op := c], completed := b.completed + {c.op})
  }

  /** The capacity guard never drops a live operation's first completion. */
  lemma PushWholeStored(b: BridgeState, c: WholeCompletion)
    requires Valid(b)
    ensures PushWhole(b, c) ==
      if c.op in b.tokens && c.op !in b.completed
      then b.(completions := b.completions[c.op := c], completed := b.completed + {c.op})
      else b
  {
    CompletedFits(b);
  }

  lemma PushWholeViews(b: BridgeState, c: WholeCompletion)
    requires Valid(b)
    ensures var b' := PushWhole(b, c);
      && At(b', c.op) == (if c.op in b.tokens && c.op !in b.completed
                          then At(b, c.op).(whole := Some(c)) else At(b, c.op))
      && (forall x :: x != c.op ==> At(b', x) == At(b, x))
  {
    PushWholeStored(b, c);
  }

  lemma PushWholeKeeps(b: BridgeState, c: WholeCompletion)
    requires Valid(b)
    ensures var b' := PushWhole(b, c);
      && Valid(b') && b'.tokens == b.tokens
      && b' == b.(completions := b'.completions, completed := b'.completed)
  {
    PushWholeStored(b, c);
    if c.op in b.tokens && c.op !in b.completed {
      StoredKeys(b.completions, c.op, c);
    }
  }

  lemma StoredKeys(completions: map<nat, WholeCompletion>, id: nat, c: WholeCompletion)
    ensures completions[id := c].Keys == completions.Keys + {id}
  {
  }

  /** Length of the longest prefix of `ids` that is already completed. */
  function DonePrefix(ids: seq<nat>, completed: set<nat>): (k: nat)
    ensures k <= |ids|
    ensures forall i :: 0 <= i < k ==> ids[i] in completed
    ensures k < |ids| ==> ids[k] !in completed
  {
    if ids == [] || ids[0] !in completed then 0
    else 1 + DonePrefix(ids[1..], completed)
  }

  function Elements(ids: seq<nat>): set<nat> {
    set id | id in ids
  }

  function Collect(completions: map<nat, WholeCompletion>, ids: seq<nat>): seq<WholeCompletion> {
    if ids == [] then []
    else (if ids[0] in completions then [completions[ids[0]]] else []) + Collect(completions, ids[1..])
  }

  /** Ids whose completion the next drain hands out. */
  function ReadyIds(b: BridgeState): seq<nat> {
    var whole := Without(b.order, b.chunkMarks);
    whole[..DonePrefix(whole, b.completed)]
  }

  /** The completions that still have their place in the order. */
  function Listed(completions: map<nat, WholeCompletion>, order: seq<nat>): map<nat, WholeCompletion> {
    map id | id in completions && id in order :: completions[id]
  }

  function TakeWhole(b: BridgeState): (BridgeState, seq<WholeCompletion>) {
    var ids := ReadyIds(b);
    var order := Without(b.order, Elements(ids));
    var kept := Listed(b.completions, order);
    (b.(order := order, completions := kept, completed := kept.Keys), Collect(b.completions, ids))
  }

  lemma {:induction false} CollectOps(completions: map<nat, WholeCompletion>, ids: seq<nat>)
    requires forall id :: id in completions ==> completions[id].op == id
    requires forall id :: id in ids ==> id in completions
    ensures var out := Collect(completions, ids);
      |out| == |ids| && forall i :: 0 <= i < |ids| ==> out[i] == completions[ids[i]]
  {
    if ids != [] {
      assert forall id :: id in ids[1..] ==> id in ids;
      CollectOps(completions, ids[1..]);
    }
  }

  lemma TakeWholeKeeps(b: BridgeState)
    requires Valid(b)
    ensures var (b', out) := TakeWhole(b);
      var ids := ReadyIds(b);
      && Valid(b') && b'.tokens == b.tokens && b'.shutdown == b.shutdown && b'.limit == b.limit
      && Increasing(ids)
      && |out| == |ids| && (forall i :: 0 <= i < |ids| ==> ids[i] in b.completions && out[i] == b.completions[ids[i]])
      && (forall i :: 0 <= i < |out| ==> out[i].op == ids[i])
      && (forall id :: id in ids ==> At(b', id) == At(b, id).(ordered := false, whole := None))
      && (forall id :: id !in ids && (id in b.order || id !in b.completions) ==> At(b', id) == At(b, id))
      && b' == b.(order := b'.order, completions := b'.completions, completed := b'.completed)
  {
    hide Without;
    var whole := Without(b.order, b.chunkMarks);
    var ids := ReadyIds(b);
    WithoutIncreasing(b.order, b.chunkMarks);
    WithoutIncreasing(b.order, Elements(ids));
    assert forall id :: id in ids ==> id in whole && id in b.completions;
    CollectOps(b.completions, ids);
  }

  /**
    Exactly which operations one drain hands out: the unmarked ones that are
    completed and have no unmarked, uncompleted predecessor.
  */
  lemma ReadyExactly(b: BridgeState, id: nat)
    requires Valid(b)
    ensures id in ReadyIds(b) <==>
      && id in b.order && id !in b.chunkMarks && id in b.completed
      && forall j :: j in b.order && j !in b.chunkMarks && j < id ==> j in b.completed
  {
    var whole := Without(b.order, b.chunkMarks);
    var k := DonePrefix(whole, b.completed);
    WithoutIncreasing(b.order, b.chunkMarks);
    if id in ReadyIds(b) {
      var i :| 0 <= i < k && whole[i] == id;
      forall j | j in b.order && j !in b.chunkMarks && j < id
        ensures j in b.completed
      {
        assert j in whole;
        var n :| 0 <= n < |whole| && whole[n] == j;
        assert n < k;
      }
    } else if id in whole && id in b.completed {
      var i :| 0 <= i < |whole| && whole[i] == id;
      assert k <= i;
      if k < i {
        assert whole[k] in whole && whole[k] < id && whole[k] !in b.completed;
      }
    }
  }

  // --------------------------------------------------------------- chunk queues

  function PushReader(b: BridgeState, c: ChunkCompletion): BridgeState {
    if b.shutdown || c.op !in b.tokens then b
    else b.(chunkMarks := b.chunkMarks + {c.op},
            readerQueues := b.readerQueues[c.op := QueueOf(b.readerQueues, c.op) + [c]])
  }

  function RequeueReader(b: BridgeState, c: ChunkCompletion): BridgeState {
    if b.shutdown || c.op !in b.tokens then b
    else b.(readerQueues := b.readerQueues[c.op := [c] + QueueOf(b.readerQueues, c.op)])
  }

  function PushStream(b: BridgeState, c: ChunkCompletion): BridgeState {
    if b.shutdown || c.op !in b.tokens then b
    else b.(chunkMarks := b.chunkMarks + {c.op},
            streamQueues := b.streamQueues[c.op := QueueOf(b.streamQueues, c.op) + [c]])
  }

  /** Storing one operation's queue leaves every other queue alone. */
  lemma QueueStored(queues: map<nat, seq<ChunkCompletion>>, id: nat, q: seq<ChunkCompletion>)
    requires QueuesNamed(queues) && forall k :: 0 <= k < |q| ==> q[k].op == id
    ensures QueuesNamed(queues[id := q]) && queues[id := q].Keys == queues.Keys + {id}
    ensures QueueOf(queues[id := q], id) == q
    ensures forall x: nat :: x != id ==> QueueOf(queues[id := q], x) == QueueOf(queues, x)
  {
    var stored := queues[id := q];
    forall x: nat | x != id
      ensures QueueOf(stored, x) == QueueOf(queues, x)
    {
    }
  }

  lemma PushReaderKeeps(b: BridgeState, c: ChunkCompletion)
    requires Valid(b)
    ensures var b' := PushReader(b, c);
      && Valid(b') && b'.tokens == b.tokens
      && At(b', c.op) == (if c.op in b.tokens
                          then At(b, c.op).(marked := true, readerQ := At(b, c.op).readerQ + [c])
                          else At(b, c.op))
      && (forall x :: x != c.op ==> At(b', x) == At(b, x))
      && b' == b.(chunkMarks := b'.chunkMarks, readerQueues := b'.readerQueues)
  {
    QueueStored(b.readerQueues, c.op, QueueOf(b.readerQueues, c.op) + [c]);
  }

  lemma RequeueReaderKeeps(b: BridgeState, c: ChunkCompletion)
    requires Valid(b)
    ensures var b' := RequeueReader(b, c);
      && Valid(b') && b'.tokens == b.tokens
      && At(b', c.op) == (if c.op in b.tokens
                          then At(b, c.op).(readerQ := [c] + At(b, c.op).readerQ)
                          else At(b, c.op))
      && (forall x :: x != c.op ==> At(b', x) == At(b, x))
      && b' == b.(readerQueues := b'.readerQueues)
  {
    QueueStored(b.readerQueues, c.op, [c] + QueueOf(b.readerQueues, c.op));
  }

  lemma PushStreamKeeps(b: BridgeState, c: ChunkCompletion)
    requires Valid(b)
    ensures var b' := PushStream(b, c);
      && Valid(b') && b'.tokens == b.tokens
      && At(b', c.op) == (if c.op in b.tokens
                          then At(b, c.op).(marked := true, streamQ := At(b, c.op).streamQ + [c])
                          else At(b, c.op))
      && (forall x :: x != c.op ==> At(b', x) == At(b, x))
      && b' == b.(chunkMarks := b'.chunkMarks, streamQueues := b'.streamQueues)
  {
    QueueStored(b.streamQueues, c.op, QueueOf(b.streamQueues, c.op) + [c]);
  }

  /** The queued chunks of `ids`, queue by queue. */
  function Drained(queues: map<nat, seq<ChunkCompletion>>, ids: seq<nat>): seq<ChunkCompletion> {
    if ids == [] then [] else QueueOf(queues, ids[0]) + Drained(queues, ids[1..])
  }

  function TakeReader(b: BridgeState): (BridgeState, seq<ChunkCompletion>) {
    (b.(readerQueues := map[]), Drained(b.readerQueues, b.order))
  }

  function TakeStream(b: BridgeState): (BridgeState, seq<ChunkCompletion>) {
    (b.(streamQueues := map[]), Drained(b.streamQueues, b.order))
  }

  /** The completions of one operation inside a drained batch. */
  function Of(batch: seq<ChunkCompletion>, id: nat): (r: seq<ChunkCompletion>)
    ensures forall k :: 0 <= k < |r| ==> r[k].op == id && r[k] in batch
  {
    Picked(batch, ChunkOp, id)
  }

  function ChunkOp(c: ChunkCompletion): nat {
    c.op
  }

  lemma {:induction false} OfOwn(a: seq<ChunkCompletion>, owner: nat, id: nat)
    requires forall k :: 0 <= k < |a| ==> a[k].op == owner
    ensures Of(a, id) == if id == owner then a else []
  {
    if a != [] {
      OfOwn(a[1..], owner, id);
    }
  }

  /** A drain moves each ordered operation's queue into the batch, whole and in order. */
  lemma {:induction false} DrainedOf(queues: map<nat, seq<ChunkCompletion>>, ids: seq<nat>, id: nat)
    requires QueuesNamed(queues) && Increasing(ids)
    ensures Of(Drained(queues, ids), id) == if id in ids then QueueOf(queues, id) else []
  {
    if ids != [] {
      assert ids[0] !in ids[1..] by {
        Unique(ids, 0);
      }
      DrainedOf(queues, ids[1..], id);
      PickedConcat(QueueOf(queues, ids[0]), Drained(queues, ids[1..]), ChunkOp, id);
      OfOwn(QueueOf(queues, ids[0]), ids[0], id);
    }
  }

  lemma TakeReaderKeeps(b: BridgeState)
    requires Valid(b)
    ensures var (b', out) := TakeReader(b);
      && Valid(b') && b'.tokens == b.tokens
      && (forall id :: At(b', id) == At(b, id).(readerQ := []))
      && (forall id :: Of(out, id) == if id in b.order then At(b, id).readerQ else [])
      && b' == b.(readerQueues := b'.readerQueues)
  {
    forall id
      ensures Of(TakeReader(b).1, id) == if id in b.order then At(b, id).readerQ else []
    {
      DrainedOf(b.readerQueues, b.order, id);
    }
  }

  lemma TakeStreamKeeps(b: BridgeState)
    requires Valid(b)
    ensures var (b', out) := TakeStream(b);
      && Valid(b') && b'.tokens == b.tokens
      && (forall id :: At(b', id) == At(b, id).(streamQ := []))
      && (forall id :: Of(out, id) == if id in b.order then At(b, id).streamQ else [])
      && b' == b.(streamQueues := b'.streamQueues)
  {
    forall id
      ensures Of(TakeStream(b).1, id) == if id in b.order then At(b, id).streamQ else []
    {
      DrainedOf(b.streamQueues, b.order, id);
    }
  }

  function ShutDown(b: BridgeState): (b': BridgeState)
    ensures Valid(b) ==> Valid(b')
  {
    b.(shutdown := true, tokens := {}, completions := map[], completed := {},
       readerQueues := map[], streamQueues := map[], liveDemand := {}, chunkMarks := {},
       order := [], active := 0)
  }

  // ---------------------------------------------------------------- footprints

  /** A client that owns `ids` moved the bridge: every other operation is as it was. */
  ghost predicate FootAt(b: BridgeState, b': BridgeState, ids: set<nat>) {
    && Valid(b) && Valid(b')
    && b.next <= b'.next && b'.shutdown == b.shutdown && b'.limit == b.limit
    && (forall x: nat :: x !in ids && x < b.next ==> At(b', x) == At(b, x))
    && (forall x :: x in b'.tokens ==> x in b.tokens || b.next <= x)
  }

  /** Moreover the whole-blob line gained nobody but the newest, and no whole-blob answer appeared. */
  ghost predicate Foot(b: BridgeState, b': BridgeState, ids: set<nat>) {
    && FootAt(b, b', ids)
    && (forall x :: x in b'.order && x !in b'.chunkMarks ==> (x in b.order && x !in b.chunkMarks) || b.next <= x)
    && b'.completions.Keys <= b.completions.Keys
  }

  lemma FootTrans(b0: BridgeState, b1: BridgeState, b2: BridgeState, ids: set<nat>)
    requires Foot(b0, b1, ids) && Foot(b1, b2, ids)
    ensures Foot(b0, b2, ids)
  {
  }

  lemma FootSame(b: BridgeState, ids: set<nat>)
    requires Valid(b)
    ensures Foot(b, b, ids)
  {
  }

  lemma FootReserve(b: BridgeState, ids: set<nat>)
    requires Valid(b)
    ensures Foot(b, Reserve(b).0, ids)
  {
    ReserveKeeps(b);
    ReserveOutcome(b);
  }

  lemma FootUnreserve(b: BridgeState, id: nat, ids: set<nat>)
    requires Valid(b) && id in ids
    ensures Foot(b, Unreserve(b, id).0, ids)
  {
    UnreserveKeeps(b, id);
  }

  lemma FootDemand(b: BridgeState, id: nat, live: bool, ids: set<nat>)
    requires Valid(b) && id in ids
    ensures Foot(b, SetLiveDemand(b, id, live), ids)
  {
    SetLiveDemandKeeps(b, id, live);
  }

  lemma FootPushReader(b: BridgeState, c: ChunkCompletion, ids: set<nat>)
    requires Valid(b) && c.op in ids
    ensures Foot(b, PushReader(b, c), ids)
  {
    PushReaderKeeps(b, c);
  }

  lemma FootRequeueReader(b: BridgeState, c: ChunkCompletion, ids: set<nat>)
    requires Valid(b) && c.op in ids
    ensures Foot(b, RequeueReader(b, c), ids)
  {
    RequeueReaderKeeps(b, c);
  }

  lemma FootPushStream(b: BridgeState, c: ChunkCompletion, ids: set<nat>)
    requires Valid(b) && c.op in ids
    ensures Foot(b, PushStream(b, c), ids)
  {
    PushStreamKeeps(b, c);
  }

  /** A reservation given back at once only uses up an id. */
  lemma FootGivenBack(b: BridgeState)
    requires Valid(b) && Reserve(b).1.Ok?
    ensures Foot(b, Unreserve(Reserve(b).0, b.next).0, {})
  {
    var ids := {b.next};
    FootReserve(b, ids);
    FootUnreserve(Reserve(b).0, b.next, ids);
    FootTrans(b, Reserve(b).0, Unreserve(Reserve(b).0, b.next).0, ids);
  }

  /** All that a call which asks for a slot may leave behind. */
  lemma FootAcquire(b: BridgeState)
    requires Valid(b)
    ensures Foot(b, b, {}) && Foot(b, Reserve(b).0, {})
    ensures Reserve(b).1.Ok? ==> Foot(b, Unreserve(Reserve(b).0, Reserve(b).1.value).0, {})
  {
    FootSame(b, {});
    FootReserve(b, {});
    ReserveOutcome(b);
    if Reserve(b).1.Ok? {
      FootGivenBack(b);
    }
  }

  lemma FootYounger(b: BridgeState, b': BridgeState, ids: set<nat>, last: int)
    requires Foot(b, b', ids) && Younger(b, last)
    ensures Younger(b', last)
  {
  }

  // ------------------------------------------------------------------ all runs

  /** One critical section, by whichever thread. */
  datatype Op =
    | DoReserve
    | DoUnreserve(id: nat)
    | DoDemand(id: nat, live: bool)
    | DoPushWhole(whole: WholeCompletion)
    | DoTakeWhole
    | DoPushReader(chunk: ChunkCompletion)
    | DoRequeueReader(chunk: ChunkCompletion)
    | DoTakeReader
    | DoPushStream(chunk: ChunkCompletion)
    | DoTakeStream
    | DoShutdown

  function Apply(b: BridgeState, op: Op): BridgeState {
    match op
    case DoReserve => Reserve(b).0
    case DoUnreserve(id) => Unreserve(b, id).0
    case DoDemand(id, live) => SetLiveDemand(b, id, live)
    case DoPushWhole(c) => PushWhole(b, c)
    case DoTakeWhole => TakeWhole(b).0
    case DoPushReader(c) => PushReader(b, c)
    case DoRequeueReader(c) => RequeueReader(b, c)
    case DoTakeReader => TakeReader(b).0
    case DoPushStream(c) => PushStream(b, c)
    case DoTakeStream => TakeStream(b).0
    case DoShutdown => ShutDown(b)
  }

  /** Ids one critical section hands out through `take_completions`. */
  function TakenBy(b: BridgeState, op: Op): seq<nat> {
    if op.DoTakeWhole? then ReadyIds(b) else []
  }

  /** Ids one critical section mints. */
  function MintedBy(b: BridgeState, op: Op): seq<nat> {
    if op.DoReserve? && Reserve(b).1.Ok? then [Reserve(b).1.value] else []
  }

  function Run(b: BridgeState, ops: seq<Op>): BridgeState
    decreases |ops|
  {
    if ops == [] then b else Run(Apply(b, ops[0]), ops[1..])
  }

  function Taken(b: BridgeState, ops: seq<Op>): seq<nat>
    decreases |ops|
  {
    if ops == [] then [] else TakenBy(b, ops[0]) + Taken(Apply(b, ops[0]), ops[1..])
  }

  function Minted(b: BridgeState, ops: seq<Op>): seq<nat>
    decreases |ops|
  {
    if ops == [] then [] else MintedBy(b, ops[0]) + Minted(Apply(b, ops[0]), ops[1..])
  }

  lemma ApplyKeeps(b: BridgeState, op: Op)
    requires Valid(b)
    ensures Valid(Apply(b, op))
  {
    match op
    case DoReserve => ReserveKeeps(b);
    case DoUnreserve(id) => UnreserveKeeps(b, id);
    case DoDemand(id, live) => SetLiveDemandKeeps(b, id, live);
    case DoPushWhole(c) => PushWholeKeeps(b, c);
    case DoTakeWhole => TakeWholeKeeps(b);
    case DoPushReader(c) => PushReaderKeeps(b, c);
    case DoRequeueReader(c) => RequeueReaderKeeps(b, c);
    case DoTakeReader => TakeReaderKeeps(b);
    case DoPushStream(c) => PushStreamKeeps(b, c);
    case DoTakeStream => TakeStreamKeeps(b);
    case DoShutdown =>
  }

  /** Quota, order and completion bookkeeping are consistent after any run. */
  lemma {:induction false} EveryRunValid(b: BridgeState, ops: seq<Op>)
    requires Valid(b)
    ensures Valid(Run(b, ops))
    decreases |ops|
  {
    if ops != [] {
      ApplyKeeps(b, ops[0]);
      EveryRunValid(Apply(b, ops[0]), ops[1..]);
    }
  }

  /** Every whole-blob operation still in line is younger than `last`. */
  ghost predicate Younger(b: BridgeState, last: int) {
    last < b.next && forall id :: id in b.order && id !in b.chunkMarks ==> last < id
  }

  function LastOr(ids: seq<nat>, last: int): int {
    if ids == [] then last else ids[|ids| - 1]
  }

  lemma TakeYounger(b: BridgeState, last: int)
    requires Valid(b) && Younger(b, last)
    ensures AllAbove(ReadyIds(b), last)
    ensures Younger(TakeWhole(b).0, LastOr(ReadyIds(b), last))
  {
    TakeWholeKeeps(b);
    var ids := ReadyIds(b);
    assert forall id :: id in ids ==> id in Without(b.order, b.chunkMarks);
    if ids != [] {
      var top := ids[|ids| - 1];
      assert top in ids && top in b.order;
      forall id | id in TakeWhole(b).0.order && id !in b.chunkMarks
        ensures top < id
      {
        assert id in b.order && id !in ids;
        ReadyExactly(b, top);
        ReadyExactly(b, id);
      }
    }
  }

  /** Outside drains, an operation joins the line only at its young end. */
  lemma OthersYounger(b: BridgeState, op: Op, last: int)
    requires Valid(b) && Younger(b, last) && !op.DoTakeWhole?
    ensures Younger(Apply(b, op), last)
  {
    match op
    case DoReserve => ReserveKeeps(b);
    case DoUnreserve(id) =>
    case DoDemand(id, live) =>
    case DoPushWhole(c) =>
    case DoPushReader(c) =>
    case DoRequeueReader(c) =>
    case DoTakeReader =>
    case DoPushStream(c) =>
    case DoTakeStream =>
    case DoShutdown =>
  }

  lemma ApplyYounger(b: BridgeState, op: Op, last: int)
    requires Valid(b) && Younger(b, last)
    ensures var ids := TakenBy(b, op);
      && Increasing(ids) && AllAbove(ids, last)
      && Younger(Apply(b, op), LastOr(ids, last))
  {
    if op.DoTakeWhole? {
      TakeWholeKeeps(b);
      TakeYounger(b, last);
    } else {
      OthersYounger(b, op, last);
    }
  }

  /**
    FIFO settlement over every run: whichever order workers finish in and
    however reservations come and go, drains hand out strictly increasing ids,
    so no operation overtakes an earlier one and none is handed out twice.
  */
  lemma {:induction false} TakenIncreases(b: BridgeState, ops: seq<Op>, last: int)
    requires Valid(b) && Younger(b, last)
    ensures Increasing(Taken(b, ops)) && AllAbove(Taken(b, ops), last)
    decreases |ops|
  {
    if ops != [] {
      var b1 := Apply(b, ops[0]);
      var now := TakenBy(b, ops[0]);
      ApplyKeeps(b, ops[0]);
      ApplyYounger(b, ops[0], last);
      TakenIncreases(b1, ops[1..], LastOr(now, last));
      LineUp(now, Taken(b1, ops[1..]), last);
    }
  }

  lemma LineUp(now: seq<nat>, later: seq<nat>, last: int)
    requires Increasing(now) && AllAbove(now, last)
    requires Increasing(later) && AllAbove(later, LastOr(now, last))
    ensures Increasing(now + later) && AllAbove(now + later, last)
  {
    if now != [] {
      var top := now[|now| - 1];
      assert top in now;
      assert forall x :: x in now ==> x <= top;
      IncreasingConcat(now, later);
    } else {
      assert now + later == later;
    }
  }

  /** Completed, in line, and behind no unmarked reservation that has not completed. */
  ghost predicate ReadyNow(b: BridgeState, id: nat) {
    && id in b.order && id !in b.chunkMarks && id in b.completions
    && forall j :: j in b.order && j !in b.chunkMarks && j < id ==> j in b.completions
  }

  /**
    FIFO from a fresh runtime: over any run the ids handed out strictly increase,
    and at its end the next drain hands out exactly the completions that are
    ready, each as its worker delivered it.
  */
  lemma FifoFromStart(concurrency: nat, ops: seq<Op>)
    ensures Increasing(Taken(Init(concurrency), ops))
    ensures var b := Run(Init(concurrency), ops);
      var out := TakeWhole(b).1;
      && (forall i :: 0 <= i < |out| ==> ReadyNow(b, out[i].op) && out[i] == b.completions[out[i].op])
      && (forall id :: ReadyNow(b, id) ==> b.completions[id] in out)
      && (forall i, j :: 0 <= i < j < |out| ==> out[i].op < out[j].op)
  {
    TakenIncreases(Init(concurrency), ops, 0);
    EveryRunValid(Init(concurrency), ops);
    DrainIsExact(Run(Init(concurrency), ops));
  }

  lemma DrainIsExact(b: BridgeState)
    requires Valid(b)
    ensures var out := TakeWhole(b).1;
      && (forall i :: 0 <= i < |out| ==> ReadyNow(b, out[i].op) && out[i] == b.completions[out[i].op])
      && (forall id :: ReadyNow(b, id) ==> b.completions[id] in out)
      && (forall i, j :: 0 <= i < j < |out| ==> out[i].op < out[j].op)
  {
    hide TakeWhole, ReadyIds, At;
    var out, ids := TakeWhole(b).1, ReadyIds(b);
    TakeWholeKeeps(b);
    forall i | 0 <= i < |out| ensures ReadyNow(b, out[i].op) {
      ReadyExactly(b, ids[i]);
    }
    forall id | ReadyNow(b, id) ensures b.completions[id] in out {
      ReadyExactly(b, id);
      var i :| 0 <= i < |ids| && ids[i] == id;
      assert out[i] == b.completions[id];
    }
  }

  /** Only a drain, the release of its slot or the shutdown ends the wait of a completion. */
  lemma CompletionWaits(b: BridgeState, op: Op, id: nat)
    requires Valid(b) && id in b.completions && id in b.order
    requires op != DoUnreserve(id) && !op.DoShutdown? && id !in TakenBy(b, op)
    ensures var b' := Apply(b, op);
      id in b'.completions && id in b'.order && b'.completions[id] == b.completions[id]
  {
    hide TakeWhole, ReadyIds, TakeReader, TakeStream, Unreserve;
    var b' := Apply(b, op);
    assert At(b, id).whole == Some(b.completions[id]);
    match op
    case DoReserve => ReserveKeeps(b);
    case DoUnreserve(x) => UnreserveKeeps(b, x);
    case DoDemand(x, live) => SetLiveDemandKeeps(b, x, live);
    case DoPushWhole(c) => PushWholeKeeps(b, c);
    case DoTakeWhole => TakeWholeKeeps(b);
    case DoPushReader(c) => PushReaderKeeps(b, c);
    case DoRequeueReader(c) => RequeueReaderKeeps(b, c);
    case DoTakeReader => TakeReaderKeeps(b);
    case DoPushStream(c) => PushStreamKeeps(b, c);
    case DoTakeStream => TakeStreamKeeps(b);
    assert At(b', id).whole == At(b, id).whole && At(b', id).ordered;
  }

  /**
    No completion is lost: over any run that neither releases its slot nor shuts
    down, a stored completion is handed out or still waits unchanged.
  */
  lemma {:induction false} NothingLost(b: BridgeState, ops: seq<Op>, id: nat)
    requires Valid(b) && id in b.completions && id in b.order
    requires DoUnreserve(id) !in ops && DoShutdown !in ops
    ensures id in Taken(b, ops)
         || (id in Run(b, ops).completions && Run(b, ops).completions[id] == b.completions[id])
    decreases |ops|
  {
    if ops != [] && id !in TakenBy(b, ops[0]) {
      ApplyKeeps(b, ops[0]);
      CompletionWaits(b, ops[0], id);
      NothingLost(Apply(b, ops[0]), ops[1..], id);
    }
  }

  lemma ApplyNext(b: BridgeState, op: Op)
    requires Valid(b)
    ensures b.next + |MintedBy(b, op)| <= Apply(b, op).next
    ensures MintedBy(b, op) == [] || MintedBy(b, op) == [b.next]
  {
    if op.DoReserve? {
      ReserveKeeps(b);
    }
  }

  /** Operation ids are never reused, not even after the id space is exhausted. */
  lemma {:induction false} MintedIncreases(b: BridgeState, ops: seq<Op>)
    requires Valid(b)
    ensures Increasing(Minted(b, ops)) && AllAbove(Minted(b, ops), b.next - 1)
    decreases |ops|
  {
    if ops != [] {
      var b1 := Apply(b, ops[0]);
      ApplyKeeps(b, ops[0]);
      ApplyNext(b, ops[0]);
      MintedIncreases(b1, ops[1..]);
      IncreasingConcat(MintedBy(b, ops[0]), Minted(b1, ops[1..]));
    }
  }

  /** The slots held never exceed the configured limit, at any point of any run. */
  lemma QuotaHolds(concurrency: nat, ops: seq<Op>)
    ensures var b := Run(Init(concurrency), ops);
      b.active == |b.tokens| <= b.limit
  {
    EveryRunValid(Init(concurrency), ops);
  }

  /**
    A reserved chunk operation that has not pushed its first chunk carries no
    mark, so it does hold back every later whole-blob completion; its first
    chunk lifts exactly that obstacle.
  */
  lemma UnreadReservationBlocks(b: BridgeState, c: ChunkCompletion, id: nat)
    requires Valid(b) && !b.shutdown
    requires c.op in b.order && c.op !in b.chunkMarks && c.op !in b.completed && c.op < id
    ensures id !in ReadyIds(b)
    ensures id in ReadyIds(PushStream(b, c)) <==>
      && id in b.order && id !in b.chunkMarks && id in b.completed
      && forall j :: j in b.order && j !in b.chunkMarks && j < id && j != c.op ==> j in b.completed
  {
    ReadyExactly(b, id);
    PushStreamKeeps(b, c);
    ReadyExactly(PushStream(b, c), id);
  }

  /** Such a state is reachable: a stream that is never read, then a promise read. */
  lemma UnreadReservationReached(c: WholeCompletion)
    requires c.op == 2
    ensures var b := PushWhole(Reserve(Reserve(Init(4)).0).0, c);
      b.completed == {2} && ReadyIds(b) == []
  {
    hide Valid;
    var b1 := Reserve(Init(4)).0;
    assert b1.next == 2 && b1.tokens == {1} && b1.order == [1] && b1.active == 1;
    var b2 := Reserve(b1).0;
    assert b2.tokens == {1, 2} && b2.order == [1, 2];
    var b := PushWhole(b2, c);
    assert b.completed == {2} && b.order == [1, 2];
    WithoutNothing(b.order, b.chunkMarks);
  }
}
