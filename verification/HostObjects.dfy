/**
  The promise-read table and the engine's job queue as objects, and the handle
  whose `poll_io` drains the three kinds of completions of one context in turn.
*/
module HostObjects {
  import opened Common
  import opened Bridge
  import opened Io
  import opened Context
  import opened ContextLaws
  import opened ContextScripts
  import opened ContextRuns
  import opened Theorems
  import J = Jobs
  import P = Promises
  import RO = ReaderObjects
  import RM = ReaderMoves
  import RS = ReaderSteps
  import SC = StreamCalls
  import SL = StreamLaws
  import SO = StreamObjects
  import Readers
  import Streams

  class PromiseRuntime {
    const io: IoBridge
    const maxBytes: nat
    var pending: set<nat>
    var tasks: seq<P.WholeTask>
    var log: seq<P.Reply>
    ghost var asked: map<nat, seq<Byte>>

    ghost function Tables(): P.PromiseState
      reads this
    {
      P.PromiseState(maxBytes, pending, tasks, asked, log)
    }

    ghost function State(): P.Desk
      reads this, io
    {
      P.Desk(io.State(), Tables())
    }

    ghost predicate Valid()
      reads this, io
    {
      Bridge.Valid(io.State())
    }

    constructor (io: IoBridge, maxBytes: nat)
      ensures this.io == io && Tables() == P.PromiseState(maxBytes, {}, [], map[], [])
    {
      this.io := io;
      this.maxBytes := maxBytes;
      pending, tasks, log, asked := {}, [], [], map[];
    }

    method ReadPromise(blob: seq<Byte>, submit: Option<SubmitError>) returns (r: P.ReadOutcome)
      requires Valid()
      modifies this, io
      ensures Valid() && (State(), r) == P.ReadPromise(old(State()), blob, submit)
    {
      hide Bridge.Reserve;
      if io.shutdown {
        return P.RejectedNow(Cancelled);
      }
      if |blob| > maxBytes {
        return P.RejectedNow(ResourceLimit);
      }
      ReserveKeeps(io.State());
      var reserved := io.Reserve();
      if reserved.Err? {
        return P.RejectedNow(if reserved.error.Shutdown? then Cancelled else TooManyReads);
      }
      var op := reserved.value;
      pending := pending + {op};
      asked := asked[op := blob];
      if submit.Some? {
        UnreserveKeeps(io.State(), op);
        var _ := io.Unreserve(op);
        pending := pending - {op};
        return P.RejectedNow(SubmitFailure(submit.value));
      }
      tasks := tasks + [P.WholeTask(op, blob)];
      r := P.Promised(op);
    }

    /** A worker answers outstanding task `i`. */
    method WorkerAnswers(i: nat, failure: Option<FileApiError>)
      requires Valid() && i < |tasks|
      modifies this`tasks, io
      ensures Valid() && State() == P.WorkerAnswers(old(State()), i, failure)
    {
      var t := tasks[i];
      var done := WholeCompletion(t.op, P.WholeAnswer(t.blob, failure));
      PushWholeKeeps(io.State(), done);
      tasks := tasks[..i] + tasks[i + 1..];
      io.PushCompletion(done);
    }

    /** `release` and `settle_completion`, as one turn of the last loop of `poll_io`. */
    method SettleCompletion(done: WholeCompletion, packFails: bool)
      requires Valid()
      modifies this`pending, this`log, io
      ensures Valid() && State() == P.Settle(old(State()), done, packFails)
      ensures io.shutdown == old(io.shutdown)
    {
      UnreserveKeeps(io.State(), done.op);
      var _ := io.Unreserve(done.op);
      if done.op !in pending {
        return;
      }
      pending := pending - {done.op};
      var result := if done.result.Ok? && packFails then Err(Internal) else done.result;
      log := log + [P.Reply(done.op, result, done.result.Err?)];
    }
  }

  /** The engine's queue of promise jobs. */
  class JobQueue {
    var jobs: seq<J.PromiseJob>
    var calls: nat
    ghost var ran: seq<J.PromiseJob>

    ghost function State(): J.Queue
      reads this
    {
      J.Queue(ran, jobs, calls)
    }

    constructor ()
      ensures State() == J.EMPTY_QUEUE
    {
      jobs, calls, ran := [], 0, [];
    }

    method Push(more: seq<J.PromiseJob>)
      modifies this
      ensures State() == J.Pushed(old(State()), more)
    {
      jobs := jobs + more;
    }

    /** A call settles the promise it hands back, in a job. */
    method Answer(answer: J.Answer)
      modifies this
      ensures State() == J.Called(old(State()), answer)
    {
      jobs := jobs + [J.CallAnswer(calls, answer)];
      calls := calls + 1;
    }

    /** The oldest job runs; that of a worker error only queues its rejection. */
    method RunHead() returns (done: J.PromiseJob)
      requires jobs != []
      modifies this
      ensures done == old(jobs)[0] && State() == J.RunHead(old(State()))
    {
      done := jobs[0];
      jobs, ran := jobs[1..], ran + [done];
      if J.Defers(done) {
        jobs := jobs + [J.Rejection(done.reply)];
      }
    }
  }

  lemma AfterOne(x: Sys, step: Step)
    ensures After(x, [step]) == Advance(x, step)
  {
    hide Advance;
    assert After(Advance(x, step), [step][1..]) == Advance(x, step);
  }

  /** One more step at the end of a run. */
  lemma AfterSnoc(x: Sys, steps: seq<Step>, last: Step)
    ensures After(x, steps + [last]) == Advance(After(x, steps), last)
  {
    hide Advance, After;
    AfterConcat(x, steps, [last]);
    AfterOne(After(x, steps), last);
  }

  class FileApiHandle {
    const io: IoBridge
    const readers: RO.ReaderRuntime
    const streams: SO.StreamRuntime
    const promises: PromiseRuntime
    const queue: JobQueue

    ghost predicate Valid()
      reads this, io
    {
      readers.io == io && streams.io == io && promises.io == io && Bridge.Valid(io.State())
    }

    /** The context while `poll_io` stands at `phase`. */
    ghost function State(phase: Phase): Sys
      reads this, io, readers, streams, promises, queue
    {
      Sys(io.State(), promises.Tables(), readers.Tables(), streams.Tables(), queue.State(), phase)
    }

    constructor (concurrency: nat, maxBytes: nat, chunkSize: nat)
      ensures Alive() && State(Idle) == Start(concurrency, maxBytes, chunkSize)
    {
      var bridge := new IoBridge(concurrency);
      io := bridge;
      readers := new RO.ReaderRuntime(bridge, chunkSize);
      streams := new SO.StreamRuntime(bridge, chunkSize);
      promises := new PromiseRuntime(bridge, maxBytes);
      queue := new JobQueue();
      new;
      ReachedStart(concurrency, maxBytes, chunkSize);
    }

    /** Between two turns of the host loop: some run of the step machine leads here. */
    ghost predicate Alive()
      reads this, io, readers, streams, promises, queue
    {
      Valid() && Reached(State(Idle))
    }

    // ----------------------------------------------------------- public calls

    /** What every call may rely on between two steps; `busy` is the operation of a suspended job. */
    ghost predicate Sound(busy: Option<nat>)
      reads this, io, readers, streams, promises, queue
    {
      && Valid() && SysInv(State(Idle), busy)
      && (!io.shutdown && busy.Some? ==> busy.value < io.nextOperation)
    }

    /** Replies and settlements reach their promises as jobs. */
    method QueueReplies(before: seq<P.Reply>)
      modifies queue
      ensures queue.State() == J.Pushed(old(queue.State()), J.ReadJobs(J.Gained(before, promises.log)))
    {
      queue.Push(J.ReadJobs(J.Gained(before, promises.log)));
    }

    method QueueSettlements(before: seq<Streams.Settlement>)
      modifies queue
      ensures queue.State() == J.Pushed(old(queue.State()), J.ChunkJobs(J.Gained(before, streams.log)))
    {
      queue.Push(J.ChunkJobs(J.Gained(before, streams.log)));
    }

    method PerformPromise(act: Act, ghost phase: Phase)
      requires Valid() && IsPromiseAct(act)
      modifies io, promises, queue
      ensures Valid() && State(phase) == DoPromise(old(State(phase)), act)
    {
      hide P.ReadPromise, P.WorkerAnswers, J.ReadJobs;
      var before := promises.log;
      match act {
        case ReadPromise(blob, submit) =>
          var r := promises.ReadPromise(blob, submit);
          QueueReplies(before);
          if r.RejectedNow? {
            queue.Answer(J.ReadRefused(r.error));
          }
        case PromiseWorker(i, failure) =>
          if i < |promises.tasks| {
            promises.WorkerAnswers(i, failure);
            QueueReplies(before);
          }
      }
    }

    method PerformReader(act: Act, ghost phase: Phase)
      requires Valid() && IsReaderAct(act)
      modifies io, readers
      ensures Valid() && State(phase) == DoReader(old(State(phase)), act)
    {
      hide Readers.StartRead, Readers.StartDataUrl, Readers.WorkerAnswers;
      match act {
        case NewReader => readers.NewReader();
        case StartRead(r, blob, kind, submit) =>
          if r < |readers.natives| {
            var _ := readers.StartRead(r, blob, kind, submit);
          }
        case StartDataUrl(r, blob, fits, submit) =>
          if r < |readers.natives| {
            var _ := readers.StartDataUrl(r, blob, fits, submit);
          }
        case ReaderWorker(i, failure) =>
          if i < |readers.tasks| {
            readers.WorkerAnswers(i, failure);
          }
      }
    }

    method PerformStream(act: Act, ghost phase: Phase)
      requires Valid()
      modifies io, streams, queue
      ensures Valid() && State(phase) == DoStream(old(State(phase)), act)
    {
      hide DoStream;
      IndexedCalls(State(phase), act);
      match act {
        case CreateStream(blob, mode) => PerformCreate(blob, mode, phase);
        case GetReader(_) => PerformLockCall(act, phase);
        case ReleaseLock(_) => PerformLockCall(act, phase);
        case Read(lock, submit) =>
          if lock < |streams.readers| {
            PerformRead(lock, submit, phase);
          }
        case CancelStream(op) =>
          if op in streams.cells {
            PerformStreamCancel(op, phase);
          }
        case CancelReader(lock) =>
          if lock < |streams.readers| {
            PerformReaderCancel(lock, phase);
          }
        case _ => PerformCollection(act, phase);
      }
    }

    method PerformCreate(blob: seq<Byte>, mode: Streams.Mode, ghost phase: Phase)
      requires Valid()
      modifies io, streams, queue
      ensures Valid() && State(phase) == DoStream(old(State(phase)), CreateStream(blob, mode))
    {
      hide Streams.CreateStream, J.ChunkJobs, J.Gained, Bridge.Valid;
      var before := streams.log;
      var _ := streams.CreateStream(blob, mode);
      QueueSettlements(before);
    }

    /** The calls of a lock that settle no promise of their own. */
    method PerformLockCall(act: Act, ghost phase: Phase)
      requires Valid() && (act.GetReader? || act.ReleaseLock?)
      modifies io, streams, queue
      ensures Valid() && State(phase) == DoStream(old(State(phase)), act)
    {
      hide Streams.GetReader, Streams.ReleaseLock, J.ChunkJobs, J.Gained, Bridge.Valid;
      var before := streams.log;
      match act {
        case GetReader(op) =>
          var _ := streams.GetReader(op);
          QueueSettlements(before);
        case ReleaseLock(lock) =>
          if lock < |streams.readers| {
            var _ := streams.ReleaseLock(lock);
            QueueSettlements(before);
          }
      }
    }

    method PerformRead(lock: nat, submit: Option<SubmitError>, ghost phase: Phase)
      requires Valid() && lock < |streams.readers|
      modifies io, streams, queue
      ensures Valid() && State(phase) == ReadingStream(old(State(phase)), lock, submit)
    {
      hide Streams.ReaderRead, Bridge.Valid, J.ChunkJobs;
      var before := streams.log;
      var r := streams.ReaderRead(lock, submit);
      QueueSettlements(before);
      if r.Immediate? {
        queue.Answer(J.StreamAnswered(r.outcome));
      }
    }

    method PerformStreamCancel(op: nat, ghost phase: Phase)
      requires Valid() && op in streams.cells
      modifies io, streams, queue
      ensures Valid() && State(phase) == DoStream(old(State(phase)), CancelStream(op))
    {
      hide Streams.StreamCancel, J.ChunkJobs, J.Gained, Bridge.Valid;
      var before := streams.log;
      var r := streams.StreamCancel(op);
      QueueSettlements(before);
      AnswerCancel(r);
    }

    method PerformReaderCancel(lock: nat, ghost phase: Phase)
      requires Valid() && lock < |streams.readers|
      modifies io, streams, queue
      ensures Valid() && State(phase) == DoStream(old(State(phase)), CancelReader(lock))
    {
      hide Streams.ReaderCancel, J.ChunkJobs, J.Gained, Bridge.Valid;
      var before := streams.log;
      var r := streams.ReaderCancel(lock);
      QueueSettlements(before);
      AnswerCancel(r);
    }

    /** `cancel()` is done or refused in a job; on a released reader it throws instead. */
    method AnswerCancel(r: Streams.CancelResult)
      modifies queue
      ensures queue.State()
           == if r.CancelReleased? then old(queue.State())
              else J.Called(old(queue.State()), J.CancelAnswered(r.CancelDone?))
    {
      if !r.CancelReleased? {
        queue.Answer(J.CancelAnswered(r.CancelDone?));
      }
    }

    /** Workers and the collector. */
    method PerformCollection(act: Act, ghost phase: Phase)
      requires Valid() && !IsStreamCall(act)
      modifies io, streams, queue
      ensures Valid() && State(phase) == DoStream(old(State(phase)), act)
    {
      hide Streams.WorkerAnswers, Streams.DropStream, Streams.DropReader, J.ChunkJobs;
      if act.StreamWorker? {
        if act.i < |streams.tasks| && streams.tasks[act.i].op in streams.cells {
          var before := streams.log;
          streams.WorkerAnswers(act.i, act.failure);
          QueueSettlements(before);
        }
      } else {
        PerformDrop(act, phase);
      }
    }

    /** The collector takes a stream object or a reader object. */
    method PerformDrop(act: Act, ghost phase: Phase)
      requires Valid() && !IsStreamCall(act) && !act.StreamWorker?
      modifies streams, queue
      ensures Valid() && State(phase) == DoStream(old(State(phase)), act)
    {
      hide Streams.DropStream, Streams.DropReader, Bridge.Valid, J.ChunkJobs, J.Gained, J.Pushed;
      var before := streams.log;
      if act.DropStream? {
        streams.DropStream(act.op);
        QueueSettlements(before);
      } else if act.DropReader? && act.lock < |streams.readers| {
        streams.DropReader(act.lock);
        QueueSettlements(before);
      }
    }

    /** `shutdown_runtime`: the bridge closer first, then the tables. */
    method ShutDown()
      requires Valid()
      modifies io, readers, streams
      ensures Valid() && State(Idle) == ShutDownAll(old(State(Idle)))
    {
      io.ShutDown();
      readers.ShutDown();
      streams.ShutDown();
    }

    /** A public call, worker step or collection between two turns of the host loop. */
    method Call(act: Act)
      requires Alive()
      modifies io, readers, streams, promises, queue
      ensures Alive() && State(Idle) == Do(old(State(Idle)), act)
    {
      hide Reached, SysInv, Do, After;
      ghost var x := State(Idle);
      ReachedInv(x);
      Perform(act, None);
      StepReached(x, Step.Call(act));
      CallAdvances(x, act);
    }

    /** Any public call, worker step or collection, with all the handlers it runs. */
    method Perform(act: Act, ghost busy: Option<nat>)
      requires Sound(busy)
      modifies io, readers, streams, promises, queue
      ensures Sound(busy) && State(Idle) == Do(old(State(Idle)), act)
      decreases act, 1
    {
      hide DoPromise, DoReader, DoStream, DoAbort, ShutDownAll, SysInv, Kept, Bridge.Valid;
      ghost var x := State(Idle);
      ghost var bound := if busy.Some? then busy.value + 1 else 0;
      DoKeeps(x, act, busy, 0, bound);
      KeptBusy(x, Do(x, act), busy, bound);
      if act.Abort? {
        if act.reader < |readers.natives| {
          Abort(act.reader, act.now, act.onAbort, act.onLoadend, busy);
        }
      } else {
        PerformPlain(act);
      }
    }

    /** A call that fires no event. */
    method PerformPlain(act: Act)
      requires Valid() && !act.Abort?
      modifies io, readers, streams, promises, queue
      ensures Valid() && State(Idle) == Do(old(State(Idle)), act)
    {
      hide DoPromise, DoReader, DoStream, DoAbort, ShutDownAll;
      if IsPromiseAct(act) {
        PerformPromise(act, Idle);
      } else if IsReaderAct(act) {
        PerformReader(act, Idle);
      } else if act.ShutDown? {
        ShutDown();
      } else {
        PerformStream(act, Idle);
      }
    }

    method RunScript(script: Script, ghost busy: Option<nat>)
      requires Sound(busy)
      modifies io, readers, streams, promises, queue
      ensures Sound(busy) && State(Idle) == Context.RunScript(old(State(Idle)), script)
      decreases script, 2
    {
      hide Do, SysInv;
      match script {
        case Stop =>
        case Then(act, rest) =>
          Perform(act, busy);
          RunScript(rest, busy);
      }
    }

    /** `abort()`: its two events call their handlers in the middle of it. */
    method Abort(r: nat, now: int, onAbort: Script, onLoadend: Script, ghost busy: Option<nat>)
      requires Sound(busy) && r < |readers.natives|
      modifies io, readers, streams, promises, queue
      ensures Valid() && State(Idle) == DoAbort(old(State(Idle)), r, now, onAbort, onLoadend)
      decreases Act.Abort(r, now, onAbort, onLoadend), 0
    {
      hide SysInv, Readers.AbortCall, Do, Context.RunScript, AbortRest, Bridge.Valid;
      ghost var x := State(Idle);
      OneOpEachReader(x, busy);
      var frame := readers.Abort(r, now);
      ghost var x1 := State(Idle);
      AbortedSound(x, r, now, busy);
      if frame.Some? {
        RunScript(onAbort, busy);
        AbortRestIs(State(Idle), frame.value);
        AbortResumedSound(x, x1, frame.value, onAbort, busy);
        FinishAbort(frame.value, onLoadend, busy);
      }
    }

    /** The second half of `abort()`, from `loadend` on. */
    method FinishAbort(f: Readers.Frame, onLoadend: Script, ghost busy: Option<nat>)
      requires Valid() && f.pause.AfterAbort?
      requires var x3 := WithRoom(State(Idle), AbortRest(State(Idle), f).0);
        SysInv(x3, busy) && (!x3.b.shutdown && busy.Some? ==> busy.value < x3.b.next)
      modifies io, readers, streams, promises, queue
      ensures Valid()
      ensures var (m3, last) := AbortRest(old(State(Idle)), f);
        var x3 := WithRoom(old(State(Idle)), m3);
        State(Idle) == if last.None? then x3 else Context.RunScript(x3, onLoadend)
      decreases onLoadend, 3
    {
      hide SysInv, Context.RunScript, Readers.ResumeAbort;
      var last := readers.ResumeAbort(f.reader, f.generation, f.now, f.pause.loaded, f.pause.total);
      if last.Some? {
        RunScript(onLoadend, busy);
      }
    }

    /** The engine runs the oldest promise job. */
    method RunPromiseJob() returns (done: J.PromiseJob)
      requires Alive() && queue.jobs != []
      modifies queue
      ensures Alive() && State(Idle) == Advance(old(State(Idle)), Step.RunPromiseJob)
      ensures done == old(queue.jobs)[0] && queue.ran == old(queue.ran) + [done]
    {
      hide Reached, After;
      ghost var x := State(Idle);
      done := queue.RunHead();
      StepReached(x, Step.RunPromiseJob);
    }

    /** One FileReading job, with the handlers of its event in the middle of it. */
    method RunJob(now: int, submit: Option<SubmitError>, packError: Option<FileApiError>, handlers: Script)
      requires Alive() && readers.jobs != []
      modifies io, readers, streams, promises, queue
      ensures Alive() && State(Idle) == Job(old(State(Idle)), now, submit, packError, handlers)
    {
      hide Reached, After, SysInv, Job, Bridge.Valid;
      ghost var x := State(Idle);
      ReachedInv(x);
      JobBody(now, submit, packError, handlers);
      StepReached(x, Step.RunJob(now, submit, packError, handlers));
      JobAdvances(x, now, submit, packError, handlers);
    }

    /** The job itself: what comes before its event, the handlers, the rest. */
    method JobBody(now: int, submit: Option<SubmitError>, packError: Option<FileApiError>, handlers: Script)
      requires Valid() && SysInv(State(Idle), None) && readers.jobs != []
      modifies io, readers, streams, promises, queue
      ensures Valid() && State(Idle) == Job(old(State(Idle)), now, submit, packError, handlers)
    {
      hide SysInv, Readers.JobEnter, Readers.Resume, Context.RunScript, Bridge.Valid;
      ghost var x := State(Idle);
      var job := readers.PopJob();
      var frame := readers.RunJob(job, now, submit, packError);
      JobSound(x, now, submit, packError, handlers);
      if frame.Some? {
        RunScript(handlers, RS.BusyOf(frame));
        var _ := readers.ResumeFrame(frame.value, submit, packError);
      }
    }

    // ---------------------------------------------------------------- poll_io

    /** The run `steps` from `x` ends here, with `poll_io` at `phase`. */
    ghost predicate Ran(x: Sys, steps: seq<Step>, phase: Phase)
      reads this, io, readers, streams, promises, queue
    {
      After(x, steps) == State(phase)
    }

    /** One turn of the first loop: over budget back into the queue, dropped after a shutdown, or at most one job. */
    method ReaderTurn(done: ChunkCompletion, settled: nat, budget: Option<nat>, ghost rest: seq<ChunkCompletion>)
      returns (queued: nat)
      requires Valid()
      modifies io, readers
      ensures Valid() && State(ReaderDrain(rest, settled + queued, budget))
                         == Context.ReaderTurn(old(State(ReaderDrain([done] + rest, settled, budget))))
      ensures queued <= 1 && (OverBudget(settled, budget) ==> queued == 0)
    {
      hide Readers.Settle, Readers.DropForShutdown, RequeueReader, Bridge.Valid;
      if budget.Some? && settled >= budget.value {
        RequeueReaderKeeps(io.State(), done);
        io.RequeueReaderCompletion(done);
        return 0;
      }
      if io.shutdown {
        readers.DropForShutdown(done.op);
        return 0;
      }
      queued := readers.SettleCompletion(done);
    }

    method DrainReaders(batch: seq<ChunkCompletion>, budget: Option<nat>, ghost x: Sys, ghost steps: seq<Step>)
      returns (settled: nat, ghost run: seq<Step>)
      requires Valid() && Ran(x, steps, ReaderDrain(batch, 0, budget))
      modifies io, readers
      ensures Valid() && Ran(x, run, ReaderDrain([], settled, budget)) && steps <= run
      ensures budget.Some? ==> settled <= budget.value
    {
      hide After, Context.ReaderTurn, Bridge.Valid;
      settled, run := 0, steps;
      assert batch[0..] == batch;
      for i := 0 to |batch|
        invariant Valid() && steps <= run && Ran(x, run, ReaderDrain(batch[i..], settled, budget))
        invariant budget.Some? ==> settled <= budget.value
      {
        ghost var turn := Turn(None, false, []);
        AfterSnoc(x, run, turn);
        run := run + [turn];
        assert batch[i..] == [batch[i]] + batch[i + 1..];
        var queued := ReaderTurn(batch[i], settled, budget, batch[i + 1..]);
        settled := settled + queued;
      }
    }

    /** One turn of the second loop. */
    method StreamTurn(done: ChunkCompletion, submit: Option<SubmitError>, packFails: bool,
                      ghost rest: seq<ChunkCompletion>, ghost count: nat)
      returns (landed: nat)
      requires Valid()
      modifies io, streams, queue
      ensures Valid() && State(StreamDrain(rest, count + landed))
                         == Context.StreamTurn(old(State(StreamDrain([done] + rest, count))), submit, packFails, [])
    {
      hide Streams.Settle, Streams.DropForShutdown, Streams.Lands, J.ChunkJobs, Bridge.Valid;
      var before := streams.log;
      if io.shutdown {
        streams.DropForShutdown(done.op);
        QueueSettlements(before);
        return 0;
      }
      var found := streams.SettleCompletion(done, submit, packFails);
      QueueSettlements(before);
      landed := if found then 1 else 0;
    }

    method DrainStreams(batch: seq<ChunkCompletion>, submits: nat -> Option<SubmitError>, packs: nat -> bool,
                        count: nat, ghost x: Sys, ghost steps: seq<Step>)
      returns (settled: nat, ghost run: seq<Step>)
      requires Valid() && Ran(x, steps, StreamDrain(batch, count))
      modifies io, streams, queue
      ensures Valid() && Ran(x, run, StreamDrain([], settled)) && steps <= run && count <= settled
    {
      hide After, Context.StreamTurn, Bridge.Valid;
      settled, run := count, steps;
      assert batch[0..] == batch;
      for i := 0 to |batch|
        invariant Valid() && steps <= run && Ran(x, run, StreamDrain(batch[i..], settled)) && count <= settled
      {
        ghost var turn := Turn(submits(i), packs(i), []);
        AfterSnoc(x, run, turn);
        run := run + [turn];
        assert batch[i..] == [batch[i]] + batch[i + 1..];
        var landed := StreamTurn(batch[i], submits(i), packs(i), batch[i + 1..], settled);
        settled := settled + landed;
      }
    }

    method GiveBack(op: nat)
      requires Valid()
      modifies io
      ensures Valid() && io.State() == Bridge.Unreserve(old(io.State()), op).0 && io.shutdown == old(io.shutdown)
    {
      UnreserveKeeps(io.State(), op);
      var _ := io.Unreserve(op);
    }

    /** One turn of the last loop. */
    method WholeTurn(done: WholeCompletion, packFails: bool, ghost rest: seq<WholeCompletion>, ghost count: nat)
      returns (settled: nat)
      requires Valid()
      modifies io, promises, queue
      ensures Valid() && State(WholeDrain(rest, count + settled))
                         == Context.WholeTurn(old(State(WholeDrain([done] + rest, count))), packFails)
      ensures io.shutdown == old(io.shutdown) && settled == if io.shutdown then 0 else 1
    {
      hide P.Settle, J.ReadJobs, Bridge.Valid;
      if io.shutdown {
        GiveBack(done.op);
        return 0;
      }
      var before := promises.log;
      promises.SettleCompletion(done, packFails);
      QueueReplies(before);
      settled := 1;
    }

    method DrainWhole(batch: seq<WholeCompletion>, packs: nat -> bool, count: nat, ghost x: Sys, ghost steps: seq<Step>)
      returns (settled: nat, ghost run: seq<Step>)
      requires Valid() && Ran(x, steps, WholeDrain(batch, count))
      modifies io, promises, queue
      ensures Valid() && Ran(x, run, WholeDrain([], settled)) && steps <= run && io.shutdown == old(io.shutdown)
      ensures settled == count + if io.shutdown then 0 else |batch|
    {
      hide After, Context.WholeTurn, Bridge.Valid;
      settled, run := count, steps;
      assert batch[0..] == batch;
      for i := 0 to |batch|
        invariant Valid() && steps <= run && Ran(x, run, WholeDrain(batch[i..], settled))
        invariant io.shutdown == old(io.shutdown) && settled == count + if io.shutdown then 0 else i
      {
        ghost var turn := Turn(None, packs(i), []);
        AfterSnoc(x, run, turn);
        run := run + [turn];
        assert batch[i..] == [batch[i]] + batch[i + 1..];
        var one := WholeTurn(batch[i], packs(i), batch[i + 1..], settled);
        settled := settled + one;
      }
    }

    /** The first sweep, then the reader completions. */
    method PollReaders(budget: Option<nat>, ghost x: Sys) returns (settled: nat, ghost run: seq<Step>)
      requires Valid() && x == State(Idle)
      modifies io, readers, streams, queue
      ensures Valid() && Ran(x, run, ReaderDrain([], settled, budget)) && run != [] && run[0].Poll?
      ensures budget.Some? ==> settled <= budget.value
    {
      hide After, Do, Job, Streams.DrainCleanups, J.ChunkJobs;
      var first := streams.LiveOps();
      var before := streams.log;
      streams.DrainCleanups(first);
      QueueSettlements(before);
      TakeReaderKeeps(io.State());
      var chunks := io.TakeReaderCompletions();
      AfterOne(x, Poll(budget, first));
      settled, run := DrainReaders(chunks, budget, x, [Poll(budget, first)]);
    }

    /** The stream completions are taken and settled. */
    method PollStreams(submits: nat -> Option<SubmitError>, packs: nat -> bool,
                       ghost budget: Option<nat>, count: nat, ghost x: Sys, ghost steps: seq<Step>)
      returns (settled: nat, ghost run: seq<Step>)
      requires Valid() && Ran(x, steps, ReaderDrain([], count, budget))
      modifies io, streams, queue
      ensures Valid() && Ran(x, run, StreamDrain([], settled)) && steps <= run && count <= settled
    {
      hide After, Do, Job;
      ghost var turn := Turn(None, false, []);
      AfterSnoc(x, steps, turn);
      TakeStreamKeeps(io.State());
      var chunks := io.TakeStreamCompletions();
      settled, run := DrainStreams(chunks, submits, packs, count, x, steps + [turn]);
    }

    /** No live stream that nothing can reach any more. */
    ghost predicate NoLeak()
      reads this, streams
    {
      AllRooted(streams.Tables())
    }

    /** The second sweep, after which no stream leaks. */
    method Sweep(ghost x: Sys, ghost count: nat, ghost steps: seq<Step>) returns (ghost ids: seq<nat>)
      requires Valid() && SysInv(x, None) && Ran(x, steps, StreamDrain([], count))
      modifies io, streams
      ensures Valid() && (io.shutdown || NoLeak())
      ensures streams.State() == Streams.DrainCleanups(old(streams.State()), ids)
    {
      hide After, SysInv, Streams.DrainCleanups, AllRooted, SL.StreamInv;
      RunKeeps(x, steps);
      SweepSafe(State(StreamDrain([], count)));
      var live := streams.LiveOps();
      ghost var w := streams.State();
      if !io.shutdown {
        SweptRooted(w, live);
      }
      streams.DrainCleanups(live);
      SweptShutdown(w, live);
      ids := live;
    }

    /** The second sweep, then the whole-blob completions that are in line. */
    method PollWhole(packs: nat -> bool, count: nat, ghost x: Sys, ghost steps: seq<Step>)
      returns (settled: nat, ghost run: seq<Step>)
      requires Valid() && SysInv(x, None) && Ran(x, steps, StreamDrain([], count))
      modifies io, streams, promises, queue
      ensures Valid() && Ran(x, run, Idle) && steps <= run && |steps| < |run| && (io.shutdown || NoLeak())
      ensures After(x, run[..|run| - 1]).phase == WholeDrain([], settled) && count <= settled
    {
      hide After, Advance, SysInv, Bridge.TakeWhole, Streams.DrainCleanups, AllRooted, J.ChunkJobs;
      var before := streams.log;
      ghost var ids := Sweep(x, count, steps);
      QueueSettlements(before);
      ghost var sweep, last := Turn(None, false, ids), Turn(None, false, []);
      AfterSnoc(x, steps, sweep);
      SweepAdvances(old(State(StreamDrain([], count))), ids);
      TakeWholeKeeps(io.State());
      var completions := io.TakeCompletions();
      settled, run := DrainWhole(completions, packs, count, x, steps + [sweep]);
      AfterSnoc(x, run, last);
      LastAdvances(State(WholeDrain([], settled)));
      assert (run + [last])[..|run|] == run;
      run := run + [last];
    }

    /**
      `poll_io` is a run of the step machine from one idle state to the next:
      what is proved about all runs holds at each of its turns and at its end,
      and before shutdown it leaves no stream behind that nothing can reach.
      It returns what its turns have counted: reader jobs, stream completions
      that found their demand, and every whole-blob completion not dropped for a
      shutdown. `submits` and the packaging oracles answer turn by turn.
    */
    method PollIo(budget: Option<nat>, submits: nat -> Option<SubmitError>, streamPacks: nat -> bool, wholePacks: nat -> bool)
      returns (settled: nat, ghost fromReaders: nat, ghost steps: seq<Step>)
      requires Alive()
      modifies io, readers, streams, promises, queue
      ensures Alive() && steps != [] && steps[0].Poll?
      ensures After(old(State(Idle)), steps) == State(Idle)
      ensures io.shutdown || NoLeak()
      ensures After(old(State(Idle)), steps[..|steps| - 1]).phase == WholeDrain([], settled)
      ensures exists k: nat ::
                k <= |steps| && After(old(State(Idle)), steps[..k]).phase == ReaderDrain([], fromReaders, budget)
      ensures fromReaders <= settled && (budget.Some? ==> fromReaders <= budget.value)
    {
      hide Reached, After, SysInv;
      ghost var x := State(Idle);
      ReachedInv(x);
      settled, steps := PollReaders(budget, x);
      fromReaders := settled;
      ghost var first := steps;
      settled, steps := PollStreams(submits, streamPacks, budget, settled, x, steps);
      settled, steps := PollWhole(wholePacks, settled, x, steps);
      assert steps[..|first|] == first;
      ReachedAfter(x, steps);
    }
  }

  ghost predicate AllRooted(s: Streams.StreamState) {
    forall op :: op in s.ops ==> op in s.cells && SC.Rooted(s, op)
  }

  lemma SweptRooted(w: Streams.World, ids: seq<nat>)
    requires SL.StreamInv(w, []) && SC.Covers(ids, w.s)
    ensures AllRooted(Streams.DrainCleanups(w, ids).s)
  {
    SC.SweepLeavesNoLeak(w, [], ids);
  }

  lemma SweepAdvances(x: Sys, ids: seq<nat>)
    requires x.phase.StreamDrain? && x.phase.stream == []
    ensures var w := Streams.DrainCleanups(World(x), ids);
      var (b', next) := TakeWhole(w.b);
      Advance(x, Turn(None, false, ids)) == WithWorld(x, w).(b := b', phase := WholeDrain(next, x.phase.count))
  {
    hide Streams.DrainCleanups, TakeWhole, J.ChunkJobs;
  }

  lemma LastAdvances(x: Sys)
    requires x.phase.WholeDrain? && x.phase.whole == []
    ensures Advance(x, Turn(None, false, [])) == x.(phase := Idle)
  {
  }

  lemma AbortRestIs(x: Sys, fr: Readers.Frame)
    requires fr.pause.AfterAbort?
    ensures AbortRest(x, fr)
         == Readers.ResumeAbort(Room(x), fr.reader, fr.generation, fr.now, fr.pause.loaded, fr.pause.total)
  {
  }

  lemma SweepSafe(x: Sys)
    requires SysInv(x, None) && x.phase.StreamDrain? && x.phase.stream == []
    ensures !x.b.shutdown ==> SL.StreamInv(World(x), [])
  {
  }

  lemma SweptShutdown(w: Streams.World, ids: seq<nat>)
    ensures w.b.shutdown ==> Streams.DrainCleanups(w, ids) == w
  {
  }

  /** No reader owns two operations, in any context the invariant describes. */
  lemma OneOpEachReader(x: Sys, busy: Option<nat>)
    requires SysInv(x, busy)
    ensures forall a, b :: a in x.f.pending && b in x.f.pending && x.f.pending[a].reader == x.f.pending[b].reader ==> a == b
  {
  }

  /** After the first half of `abort()` the handlers find a sound context. */
  lemma AbortedSound(x: Sys, r: nat, now: int, busy: Option<nat>)
    requires SysInv(x, busy) && x.phase.Idle? && r < |x.f.natives|
    requires !x.b.shutdown && busy.Some? ==> busy.value < x.b.next
    ensures var (m, fr) := Readers.AbortCall(Room(x), r, now);
      && SysInv(WithRoom(x, m), busy)
      && (!m.b.shutdown && busy.Some? ==> busy.value < m.b.next)
      && (fr.Some? ==> fr.value.pause.AfterAbort?)
  {
    hide Running, RS.FrameOk;
    var m := Readers.AbortCall(Room(x), r, now).0;
    var bound := if busy.Some? then busy.value + 1 else 0;
    if x.b.shutdown {
      AbortCallStopped(Room(x), r, now);
      StoppedAs(x, WithRoom(x, m));
    } else {
      AbortBegins(x, r, now, busy, 0, bound);
      KeptBusy(x, WithRoom(x, m), busy, bound);
    }
  }

  /** And so do the handlers of `loadend`. */
  lemma AbortResumedSound(x: Sys, x1: Sys, fr: Readers.Frame, onAbort: Script, busy: Option<nat>)
    requires SysInv(x, busy) && x.phase.Idle?
    requires !x.b.shutdown && busy.Some? ==> busy.value < x.b.next
    requires exists r: nat, now: int :: r < |x.f.natives| && Readers.AbortCall(Room(x), r, now) == (Room(x1), Some(fr))
    requires x1 == WithRoom(x, Room(x1))
    ensures var x2 := Context.RunScript(x1, onAbort);
      var x3 := WithRoom(x2, AbortRest(x2, fr).0);
      SysInv(x3, busy) && (!x3.b.shutdown && busy.Some? ==> busy.value < x3.b.next)
  {
    hide Running, RS.FrameOk, Context.RunScript, AbortRest;
    var r: nat, now: int :| r < |x.f.natives| && Readers.AbortCall(Room(x), r, now) == (Room(x1), Some(fr));
    var bound := if busy.Some? then busy.value + 1 else 0;
    if x.b.shutdown {
      AbortCallStopped(Room(x), r, now);
    } else {
      AbortBegins(x, r, now, busy, 0, bound);
      AbortFirst(x, x1, fr, onAbort, busy, 0, bound);
      var x2 := Context.RunScript(x1, onAbort);
      var x3 := WithRoom(x2, AbortRest(x2, fr).0);
      KeptTrans(x, x2, x3, busy, 0, bound);
      KeptBusy(x, x3, busy, bound);
    }
  }

  /** A job leaves a sound context to its handlers, and to what comes after it. */
  lemma JobSound(x: Sys, now: int, submit: Option<SubmitError>, packError: Option<FileApiError>, handlers: Script)
    requires SysInv(x, None) && x.phase.Idle? && x.f.jobs != []
    ensures SysInv(Job(x, now, submit, packError, handlers), None)
    ensures var (m, fr) := Readers.JobEnter(RM.JobPopped(Room(x)), x.f.jobs[0], now, submit, packError);
      var busy := RS.BusyOf(fr);
      && SysInv(WithRoom(x, m), busy)
      && (!m.b.shutdown && busy.Some? ==> busy.value < m.b.next)
  {
    hide Running, RS.FrameOk, Readers.JobEnter, Job;
    if x.b.shutdown {
      JobStopped(x, now, submit, packError, handlers);
      JobEnterStopped(x, now, submit, packError);
    } else {
      JobStarts(x, now, submit, packError);
      JobRuns(x, now, submit, packError, handlers);
      var (m, fr) := Readers.JobEnter(RM.JobPopped(Room(x)), x.f.jobs[0], now, submit, packError);
      RunningIsOpen(WithRoom(x, m), RS.BusyOf(fr));
    }
  }

  lemma JobEnterStopped(x: Sys, now: int, submit: Option<SubmitError>, packError: Option<FileApiError>)
    requires Stopped(x) && x.f.jobs != []
    ensures var m := RM.JobPopped(Room(x));
      Readers.JobEnter(m, x.f.jobs[0], now, submit, packError) == (m, None) && Stopped(WithRoom(x, m))
  {
    StoppedAs(x, WithRoom(x, RM.JobPopped(Room(x))));
  }

  lemma StepReached(x: Sys, step: Step)
    requires Reached(x)
    ensures Reached(Advance(x, step))
  {
    hide Reached, Advance, After;
    AfterOne(x, step);
    ReachedAfter(x, [step]);
  }

  /** A call on no object does nothing. */
  lemma IndexedCalls(x: Sys, act: Act)
    ensures act.Read? ==>
      DoStream(x, act) == if act.lock < |x.s.readers| then ReadingStream(x, act.lock, act.submit) else x
    ensures act.CancelStream? && act.op !in x.s.cells ==> DoStream(x, act) == x
    ensures act.CancelReader? && act.lock >= |x.s.readers| ==> DoStream(x, act) == x
  {
    hide ReadingStream, Cancelling;
  }

  lemma CallAdvances(x: Sys, act: Act)
    requires x.phase.Idle?
    ensures Advance(x, Step.Call(act)) == Do(x, act)
  {
    hide Do;
  }

  lemma JobAdvances(x: Sys, now: int, submit: Option<SubmitError>, packError: Option<FileApiError>, handlers: Script)
    requires x.phase.Idle? && x.f.jobs != []
    ensures Advance(x, Step.RunJob(now, submit, packError, handlers)) == Job(x, now, submit, packError, handlers)
  {
    hide Job;
  }
}
