/** Runs that show what the general statements about settlement allow and exclude. */
module Inputs {
  import opened Common
  import opened Bridge
  import opened Context
  import opened Jobs
  import opened JobOrder
  import opened Settlements
  import opened Theorems
  import P = Promises
  import S = Streams

  const NO_TURN := Turn(None, false, [])

  /** Two promise reads; the source of the first one fails. */
  const TWO_READS: seq<Step> := [
    Step.Call(ReadPromise([1], None)), Step.Call(ReadPromise([2], None)),
    Step.Call(PromiseWorker(0, Some(PermissionDenied))), Step.Call(PromiseWorker(0, None))]

  /** One `poll_io`. */
  const ONE_POLL: seq<Step> := [Poll(None, []), NO_TURN, NO_TURN, NO_TURN, NO_TURN, NO_TURN]

  const BROKEN := WholeCompletion(1, Err(PermissionDenied))
  const FETCHED := WholeCompletion(2, Ok([2]))
  const FAILURE := P.Reply(1, Err(PermissionDenied), true)
  const CONTENT := P.Reply(2, Ok([2]), false)

  function Fresh(): Sys {
    Start(4, 100, MIN_CHUNK)
  }

  /** After the workers have answered. */
  function AnsweredBridge(): BridgeState {
    Fresh().b.(next := 3, active := 2, order := [1, 2], tokens := {1, 2}, completed := {1, 2},
               completions := map[1 := BROKEN, 2 := FETCHED])
  }

  function AnsweredSys(): Sys {
    Fresh().(b := AnsweredBridge(), p := P.PromiseState(100, {1, 2}, [], map[1 := [1], 2 := [2]], []))
  }

  /** After the poll: both slots are free again, two jobs wait. */
  function PolledSys(): Sys {
    Fresh().(b := Fresh().b.(next := 3), p := P.PromiseState(100, {}, [], map[1 := [1], 2 := [2]], [FAILURE, CONTENT]),
             q := Queue([], [OwedRead(FAILURE), OwedRead(CONTENT)], 0))
  }

  lemma Reading(x: Sys, blob: seq<Byte>)
    requires x.phase.Idle? && !x.b.shutdown && |blob| <= x.p.maxBytes && Valid(x.b) && x.b.active < x.b.limit
    requires !x.b.exhausted && x.b.next != U64_MAX
    ensures Advance(x, Step.Call(ReadPromise(blob, None)))
         == x.(b := Granted(x.b), p := P.Accepted(Desk(x), blob).p)
  {
    ReserveOutcome(x.b);
    assert Gained(x.p.log, x.p.log) == [];
    assert x.q.jobs + [] == x.q.jobs;
  }

  lemma WorkerDone(x: Sys, failure: Option<FileApiError>)
    requires x.p.tasks != [] && Valid(x.b)
    requires x.p.tasks[0].op in x.b.tokens && x.p.tasks[0].op !in x.b.completions
    ensures var t := x.p.tasks[0];
      var c := WholeCompletion(t.op, P.WholeAnswer(t.blob, failure));
      Advance(x, Step.Call(PromiseWorker(0, failure)))
      == x.(b := x.b.(completions := x.b.completions[t.op := c], completed := x.b.completed + {t.op}),
            p := x.p.(tasks := x.p.tasks[1..]))
  {
    PushWholeStored(x.b, WholeCompletion(x.p.tasks[0].op, P.WholeAnswer(x.p.tasks[0].blob, failure)));
    assert x.p.tasks[..0] + x.p.tasks[1..] == x.p.tasks[1..];
    assert Gained(x.p.log, x.p.log) == [];
    assert x.q.jobs + [] == x.q.jobs;
  }

  lemma First(x: Sys, steps: seq<Step>)
    requires steps != []
    ensures After(x, steps) == After(Advance(x, steps[0]), steps[1..])
  {
    hide Advance;
  }

  /** Both reads have a slot and a task. */
  function AskedSys(): Sys {
    Fresh().(b := Fresh().b.(next := 3, active := 2, order := [1, 2], tokens := {1, 2}),
             p := P.PromiseState(100, {1, 2}, [P.WholeTask(1, [1]), P.WholeTask(2, [2])], map[1 := [1], 2 := [2]], []))
  }

  lemma ReadsAsked()
    ensures Advance(Advance(Fresh(), TWO_READS[0]), TWO_READS[1]) == AskedSys() && Valid(AskedSys().b)
  {
    hide Advance, P.ReadPromise;
    var x0 := Fresh();
    var x1 := x0.(b := Granted(x0.b), p := P.Accepted(Desk(x0), [1]).p);
    Reading(x0, [1]);
    GrantedValid(x0.b);
    Reading(x1, [2]);
    GrantedValid(x1.b);
  }

  lemma ReadsAnswered()
    ensures After(Fresh(), TWO_READS) == AnsweredSys() && Valid(AnsweredBridge())
  {
    hide Advance, After, PushWhole;
    var x2 := AskedSys();
    ReadsAsked();
    WorkerDone(x2, Some(PermissionDenied));
    var x3 := x2.(b := x2.b.(completions := map[1 := BROKEN], completed := {1}), p := x2.p.(tasks := x2.p.tasks[1..]));
    PushWholeKeeps(x2.b, BROKEN);
    PushWholeStored(x2.b, BROKEN);
    WorkerDone(x3, None);
    PushWholeKeeps(x3.b, FETCHED);
    PushWholeStored(x3.b, FETCHED);
    FourSteps(Fresh(), TWO_READS);
  }

  lemma FourSteps(x: Sys, steps: seq<Step>)
    requires |steps| == 4
    ensures After(x, steps) == Advance(Advance(Advance(Advance(x, steps[0]), steps[1]), steps[2]), steps[3])
  {
    hide Advance, After;
    First(x, steps);
    First(Advance(x, steps[0]), steps[1..]);
    First(Advance(Advance(x, steps[0]), steps[1]), steps[2..]);
    First(Advance(Advance(Advance(x, steps[0]), steps[1]), steps[2]), steps[3..]);
    Nothing(Advance(Advance(Advance(Advance(x, steps[0]), steps[1]), steps[2]), steps[3]));
    assert steps[1..][1..] == steps[2..] && steps[2..][1..] == steps[3..] && steps[3..][1..] == [];
  }

  lemma Nothing(x: Sys)
    ensures After(x, []) == x
  {
  }

  // -------------------------------------------------------------------- polls

  lemma NoChunks(ids: seq<nat>)
    ensures Drained(map[], ids) == []
  {
    if ids != [] {
      NoChunks(ids[1..]);
    }
  }

  lemma NothingToSweep(w: S.World)
    requires w.s.cells == map[]
    ensures S.DrainCleanups(w, []) == w
  {
    if !w.b.shutdown {
      assert S.SyncAll(w).s.cells == map[];
    }
  }

  /** A poll of a context without streams and chunks gets to the whole-blob completions at once. */
  lemma QuietPoll(x: Sys)
    requires x.phase.Idle? && x.s.cells == map[] && x.b.readerQueues == map[] && x.b.streamQueues == map[]
    ensures Advance(Advance(Advance(x, Poll(None, [])), NO_TURN), NO_TURN)
         == x.(b := TakeWhole(x.b).0, phase := WholeDrain(TakeWhole(x.b).1, 0))
  {
    hide S.DrainCleanups, TakeWhole;
    NoChunks(x.b.order);
    NothingToSweep(World(x));
    assert Gained(x.s.log, x.s.log) == [];
    assert x.q.jobs + [] == x.q.jobs;
    var x1 := Advance(x, Poll(None, []));
    assert x1 == x.(phase := ReaderDrain([], 0, None));
    var x2 := Advance(x1, NO_TURN);
    assert x2 == x.(phase := StreamDrain([], 0));
    NothingToSweep(World(x2));
  }

  lemma {:induction false} AllGone(ids: seq<nat>, gone: set<nat>)
    requires forall id :: id in ids ==> id in gone
    ensures Without(ids, gone) == []
  {
    if ids != [] {
      AllGone(ids[1..], gone);
    }
  }

  lemma BothReady()
    ensures var (b, out) := TakeWhole(AnsweredBridge());
      b == AnsweredBridge().(order := [], completions := map[], completed := {}) && out == [BROKEN, FETCHED]
  {
    var b := AnsweredBridge();
    WithoutNothing(b.order, b.chunkMarks);
    assert DonePrefix([2], b.completed) == 1 + DonePrefix([], b.completed);
    assert DonePrefix([1, 2], b.completed) == 1 + DonePrefix([2], b.completed) by {
      assert [1, 2][1..] == [2];
    }
    assert ReadyIds(b) == [1, 2];
    var ids: seq<nat> := [1, 2];
    AllGone(ids, Elements(ids));
    assert Listed(b.completions, []) == map[];
    assert Collect(b.completions, [2]) == [FETCHED] + Collect(b.completions, []);
    assert ids[1..] == [2];
  }

  /** One turn of the last loop, on a context that runs. */
  lemma Replied(x: Sys, c: WholeCompletion, rest: seq<WholeCompletion>, count: nat)
    requires x.phase == WholeDrain([c] + rest, count) && !x.b.shutdown && c.op in x.p.pending
    ensures var r := P.Reply(c.op, c.result, c.result.Err?);
      Advance(x, NO_TURN)
      == x.(b := Unreserve(x.b, c.op).0, p := x.p.(pending := x.p.pending - {c.op}, log := x.p.log + [r]),
            q := Pushed(x.q, [OwedRead(r)]), phase := WholeDrain(rest, count + 1))
  {
    hide Unreserve;
    var r := P.Reply(c.op, c.result, c.result.Err?);
    assert ([c] + rest)[0] == c && ([c] + rest)[1..] == rest;
    assert Gained(x.p.log, x.p.log + [r]) == [r];
  }

  lemma SixSteps(x: Sys, steps: seq<Step>)
    requires |steps| == 6
    ensures var y := Advance(Advance(Advance(x, steps[0]), steps[1]), steps[2]);
      After(x, steps) == Advance(Advance(Advance(y, steps[3]), steps[4]), steps[5])
  {
    hide Advance, After;
    First(x, steps);
    First(Advance(x, steps[0]), steps[1..]);
    assert steps[1..][1..] == steps[2..] && steps[2..][0] == steps[2] && steps[2..][1] == steps[3]
        && steps[2..][2] == steps[4] && steps[2..][3] == steps[5];
    FourSteps(Advance(Advance(x, steps[0]), steps[1]), steps[2..]);
  }

  lemma PolledBridge()
    ensures var b := AnsweredBridge().(order := [], completions := map[], completed := {});
      Unreserve(Unreserve(b, 1).0, 2).0 == Fresh().b.(next := 3)
  {
    assert Without([], {1}) == [] && Without([], {2}) == [];
    assert {1, 2} - {1} == {2};
  }

  /** The poll with both completions in hand, and after the first of them. */
  function DrainedSys(): Sys {
    AnsweredSys().(b := AnsweredBridge().(order := [], completions := map[], completed := {}),
                   phase := WholeDrain([BROKEN] + [FETCHED], 0))
  }

  function HalfwaySys(): Sys {
    DrainedSys().(b := Unreserve(DrainedSys().b, 1).0, p := DrainedSys().p.(pending := {2}, log := [FAILURE]),
                  q := Queue([], [OwedRead(FAILURE)], 0), phase := WholeDrain([FETCHED] + [], 1))
  }

  lemma FirstReplied()
    ensures Advance(DrainedSys(), NO_TURN) == HalfwaySys()
  {
    hide Advance, Unreserve;
    var y := DrainedSys();
    Replied(y, BROKEN, [FETCHED], 0);
    assert {1, 2} - {1} == {2} && y.p.log + [FAILURE] == [FAILURE] && [FETCHED] + [] == [FETCHED];
    assert Pushed(y.q, [OwedRead(FAILURE)]) == HalfwaySys().q;
  }

  lemma SecondReplied()
    ensures Advance(Advance(HalfwaySys(), NO_TURN), NO_TURN) == PolledSys()
  {
    hide Advance, Unreserve;
    var z := HalfwaySys();
    PolledBridge();
    OpenAfter(DrainedSys().b, 1);
    Replied(z, FETCHED, [], 1);
    assert {2} - {2} == {} && z.p.log + [CONTENT] == [FAILURE, CONTENT];
    assert Pushed(z.q, [OwedRead(CONTENT)]).jobs == [OwedRead(FAILURE), OwedRead(CONTENT)];
    LastTurn(Advance(z, NO_TURN), 2);
  }

  lemma ReadsPolled()
    ensures After(AnsweredSys(), ONE_POLL) == PolledSys()
  {
    hide Advance, After, TakeWhole, Unreserve, HalfwaySys, PolledSys;
    QuietPoll(AnsweredSys());
    BothReady();
    assert [BROKEN] + [FETCHED] == [BROKEN, FETCHED];
    FirstReplied();
    SecondReplied();
    SixSteps(AnsweredSys(), ONE_POLL);
  }

  lemma OpenAfter(b: BridgeState, id: nat)
    ensures Unreserve(b, id).0.shutdown == b.shutdown
  {
  }

  lemma LastTurn(x: Sys, count: nat)
    requires x.phase == WholeDrain([], count)
    ensures Advance(x, NO_TURN) == x.(phase := Idle)
  {
  }

  // ------------------------------------------------------------------- results

  lemma RunsHead(x: Sys)
    requires x.phase.Idle? && x.q.jobs != []
    ensures Advance(x, RunPromiseJob) == x.(q := RunHead(x.q))
  {
  }

  lemma ThreeJobs(x: Sys)
    requires x.phase.Idle? && x.q == PolledSys().q
    ensures After(x, Engine(3))
         == x.(q := Queue([OwedRead(FAILURE), OwedRead(CONTENT), Rejection(FAILURE)], [], 0))
  {
    hide Advance, After;
    var a, b, c := OwedRead(FAILURE), OwedRead(CONTENT), Rejection(FAILURE);
    RunsHead(x);
    var x1 := x.(q := Queue([a], [b, c], 0));
    assert RunHead(x.q) == Queue([a], [b, c], 0);
    RunsHead(x1);
    var x2 := x.(q := Queue([a, b], [c], 0));
    RunsHead(x2);
    var x3 := x.(q := Queue([a, b, c], [], 0));
    assert RunHead(x1.q) == x2.q && RunHead(x2.q) == x3.q;
    assert Engine(1)[1..] == Engine(0) == [];
    assert Engine(2)[1..] == Engine(1);
    assert Engine(3)[1..] == Engine(2);
    First(x, Engine(3));
    First(x1, Engine(2));
    First(x2, Engine(1));
    Nothing(x3);
  }

  /**
    Two promise reads, the first one's source fails, one poll drains both:
    the second one settles first.
  */
  lemma LaterReadSettlesFirst()
    ensures var polled := After(After(Fresh(), TWO_READS), ONE_POLL);
      var x := After(polled, Engine(3));
      && Stretch(polled.q) == [FAILURE, CONTENT] && ErrorOvertaken(Stretch(polled.q))
      && x.q.jobs == [] && SettledReads(x) == [CONTENT, FAILURE]
  {
    hide Advance, After;
    var waiting := [OwedRead(FAILURE), OwedRead(CONTENT)];
    ChosenFirst(waiting, ReplyOf);
    ChosenFirst(waiting[1..], ReplyOf);
    assert Chosen(waiting, ReplyOf) == [FAILURE, CONTENT] && [FAILURE, CONTENT][0].late && ![FAILURE, CONTENT][1].late;
    ReadsAnswered();
    ReadsPolled();
    ThreeJobs(PolledSys());
    var js := [OwedRead(FAILURE), OwedRead(CONTENT), Rejection(FAILURE)];
    ChosenFirst(js, SettledOf);
    ChosenFirst(js[1..], SettledOf);
    ChosenFirst(js[2..], SettledOf);
  }

  /** The same two reads with the runtime shut down after the poll: both promises settle all the same. */
  lemma SettledAfterShutdown()
    ensures var x := Advance(After(After(Fresh(), TWO_READS), ONE_POLL), Step.Call(ShutDown));
      && x.b.shutdown && SettledReads(x) == []
      && SettledReads(After(x, Engine(3))) == [CONTENT, FAILURE]
  {
    hide After, Engine;
    ReadsAnswered();
    ReadsPolled();
    var x := Advance(PolledSys(), Step.Call(ShutDown));
    ThreeJobs(x);
    LaterReadSettlesFirst();
    ThreeJobs(PolledSys());
  }

  // ------------------------------------------------------------ owed for ever

  /** A stream over one byte, its reader, and a `read()` that waits for a worker. */
  const STREAM_READ: seq<Step> := [
    Step.Call(CreateStream([1], S.BytesMode)), Step.Call(GetReader(1)), Step.Call(Read(0, None))]

  ghost predicate Streaming(x: Sys, locked: bool) {
    && x.phase.Idle? && !x.b.shutdown && 1 in x.b.tokens && 1 in x.s.ops && 1 in x.s.cells && 1 in x.s.payloads
    && var c := x.s.cells[1];
    && c.queue == [] && c.nextSeq == 0 && c.hasData && !c.cancelled && c.errored.None? && !c.inFlight
    && c.locked == locked
    && x.s.readers == (if locked then [S.ReaderObject(1, false, false, false)] else [])
  }

  lemma StreamCreated()
    ensures Streaming(Advance(Fresh(), STREAM_READ[0]), false)
  {
    ReserveOutcome(Fresh().b);
  }

  lemma ReaderGot(x: Sys)
    requires Streaming(x, false)
    ensures Streaming(Advance(x, Step.Call(GetReader(1))), true)
  {
  }

  lemma ReadWaits(x: Sys)
    requires Streaming(x, true)
    ensures var y := Advance(x, Step.Call(Read(0, None)));
      && y.phase.Idle? && !y.b.shutdown && 1 in y.s.cells && y.s.cells[1].queue == [0]
  {
    hide S.FailFromSubmit;
    assert SetLiveDemand(x.b, 1, true).tokens == x.b.tokens;
    var w := S.Queued(World(x), 1);
    assert w.s.cells[1].queue == [0];
  }

  /** A `read()` that waits when the runtime shuts down stays pending for ever. */
  lemma ReadLeftPending(steps: seq<Step>)
    ensures var x := After(Fresh(), STREAM_READ);
      && Reached(x) && Owed(x, Ticket.Chunk(1, 0))
      && !Settles(After(Advance(x, Step.Call(ShutDown)), steps).q.ran, Ticket.Chunk(1, 0))
  {
    hide Advance, After, Reached;
    var x1 := Advance(Fresh(), STREAM_READ[0]);
    var x2 := Advance(x1, STREAM_READ[1]);
    StreamCreated();
    ReaderGot(x1);
    ReadWaits(x2);
    First(Fresh(), STREAM_READ);
    First(x1, STREAM_READ[1..]);
    First(x2, STREAM_READ[2..]);
    Nothing(Advance(x2, STREAM_READ[2]));
    assert STREAM_READ[1..][1..] == STREAM_READ[2..] && STREAM_READ[2..][1..] == [];
    ReachedStart(4, 100, MIN_CHUNK);
    ReachedAfter(Fresh(), STREAM_READ);
    OwedNeverSettles(After(Fresh(), STREAM_READ), steps, Ticket.Chunk(1, 0));
  }
}
