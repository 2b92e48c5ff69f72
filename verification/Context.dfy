/**
  One context as a whole: promise reads, FileReaders and streams share one
  bridge. Handlers are scripts of public calls; workers and the collector act
  between any two steps, also inside a script.
*/
module Context {
  import opened Common
  import opened Bridge
  import J = Jobs
  import P = Promises
  import R = Readers
  import S = Streams
  import RT = ReaderTurns

  /** Where `poll_io` stands; nothing else of the Boa thread runs meanwhile. */
  datatype Phase =
    | Idle
    | ReaderDrain(reader: seq<ChunkCompletion>, settled: nat, budget: Option<nat>)
    | StreamDrain(stream: seq<ChunkCompletion>, count: nat)
    | WholeDrain(whole: seq<WholeCompletion>, count: nat)

  /** `q` is the engine's queue of promise jobs; FileReading jobs have a queue of their own in `f`. */
  datatype Sys = Sys(b: BridgeState, p: P.PromiseState, f: R.ReaderState, s: S.StreamState, q: J.Queue, phase: Phase)

  function Desk(x: Sys): P.Desk {
    P.Desk(x.b, x.p)
  }

  function Room(x: Sys): R.Room {
    R.Room(x.b, x.f)
  }

  function World(x: Sys): S.World {
    S.World(x.b, x.s)
  }

  /** Every reply that promise reads got is queued as a job. */
  function WithDesk(x: Sys, d: P.Desk): Sys {
    x.(b := d.b, p := d.p, q := J.Pushed(x.q, J.ReadJobs(J.Gained(x.p.log, d.p.log))))
  }

  function WithRoom(x: Sys, m: R.Room): Sys {
    x.(b := m.b, f := m.f)
  }

  /** And so is every settlement of a stream's reads. */
  function WithWorld(x: Sys, w: S.World): Sys {
    x.(b := w.b, s := w.s, q := J.Pushed(x.q, J.ChunkJobs(J.Gained(x.s.log, w.s.log))))
  }

  /** A call tells the promise it hands back, in a job. */
  function Answering(x: Sys, answer: J.Answer): Sys {
    x.(q := J.Called(x.q, answer))
  }

  // ----------------------------------------------------------- acts and scripts

  /** What handlers, workers and the collector may do. An index out of range is no call. */
  datatype Act =
    | ReadPromise(blob: seq<Byte>, submit: Option<SubmitError>)
    | NewReader
    | StartRead(reader: nat, blob: seq<Byte>, kind: R.Kind, submit: Option<SubmitError>)
    | StartDataUrl(reader: nat, blob: seq<Byte>, fits: bool, submit: Option<SubmitError>)
    | Abort(reader: nat, now: int, onAbort: Script, onLoadend: Script)
    | CreateStream(blob: seq<Byte>, mode: S.Mode)
    | GetReader(op: nat)
    | Read(lock: nat, submit: Option<SubmitError>)
    | CancelStream(op: nat)
    | CancelReader(lock: nat)
    | ReleaseLock(lock: nat)
    | ShutDown
    | PromiseWorker(i: nat, failure: Option<FileApiError>)
    | ReaderWorker(i: nat, failure: Option<FileApiError>)
    | StreamWorker(i: nat, failure: Option<FileApiError>)
    | DropStream(op: nat)
    | DropReader(lock: nat)

  datatype Script = Stop | Then(act: Act, rest: Script)

  /** Acts that need no turn of the Boa thread. */
  predicate IsEnvironment(act: Act) {
    act.PromiseWorker? || act.ReaderWorker? || act.StreamWorker? || act.DropStream? || act.DropReader?
  }

  /** `shutdown_runtime`: bridge closer first, then the context tables. */
  function ShutDownAll(x: Sys): Sys {
    x.(b := Bridge.ShutDown(x.b), f := R.ShutDownReaders(x.f), s := S.ShutDownStreams(x.s))
  }

  predicate IsPromiseAct(act: Act) {
    act.ReadPromise? || act.PromiseWorker?
  }

  predicate IsReaderAct(act: Act) {
    act.NewReader? || act.StartRead? || act.StartDataUrl? || act.ReaderWorker?
  }

  function DoPromise(x: Sys, act: Act): Sys
    requires IsPromiseAct(act)
  {
    match act
    case ReadPromise(blob, submit) => ReadingPromise(x, blob, submit)
    case PromiseWorker(i, failure) =>
      if i < |x.p.tasks| then WithDesk(x, P.WorkerAnswers(Desk(x), i, failure)) else x
  }

  /** `read_promise`: what it cannot begin is refused in a job. */
  function ReadingPromise(x: Sys, blob: seq<Byte>, submit: Option<SubmitError>): Sys {
    var (d, r) := P.ReadPromise(Desk(x), blob, submit);
    if r.RejectedNow? then Answering(WithDesk(x, d), J.ReadRefused(r.error)) else WithDesk(x, d)
  }

  /** `read()`: a stream that is over answers in a job; a released reader throws. */
  function ReadingStream(x: Sys, lock: nat, submit: Option<SubmitError>): Sys
    requires lock < |x.s.readers|
  {
    var (w, r) := S.ReaderRead(World(x), lock, submit);
    if r.Immediate? then Answering(WithWorld(x, w), J.StreamAnswered(r.outcome)) else WithWorld(x, w)
  }

  /** `cancel()` of either kind: done or refused in a job; a released reader throws. */
  function Cancelling(x: Sys, w: S.World, r: S.CancelResult): Sys {
    if r.CancelReleased? then WithWorld(x, w) else Answering(WithWorld(x, w), J.CancelAnswered(r.CancelDone?))
  }

  function DoReader(x: Sys, act: Act): Sys
    requires IsReaderAct(act)
  {
    match act
    case NewReader => WithRoom(x, RT.NewReader(Room(x)))
    case StartRead(r, blob, kind, submit) =>
      if r < |x.f.natives| then WithRoom(x, R.StartRead(Room(x), r, blob, kind, submit).0) else x
    case StartDataUrl(r, blob, fits, submit) =>
      if r < |x.f.natives| then WithRoom(x, R.StartDataUrl(Room(x), r, blob, fits, submit).0) else x
    case ReaderWorker(i, failure) =>
      if i < |x.f.tasks| then WithRoom(x, R.WorkerAnswers(Room(x), i, failure)) else x
  }

  function DoStream(x: Sys, act: Act): Sys {
    match act
    case CreateStream(blob, mode) => WithWorld(x, S.CreateStream(World(x), blob, mode).0)
    case GetReader(op) => WithWorld(x, S.GetReader(World(x), op).0)
    case Read(lock, submit) =>
      if lock < |x.s.readers| then ReadingStream(x, lock, submit) else x
    case CancelStream(op) =>
      if op in x.s.cells then Cancelling(x, S.StreamCancel(World(x), op).0, S.StreamCancel(World(x), op).1) else x
    case CancelReader(lock) =>
      if lock < |x.s.readers|
      then Cancelling(x, S.ReaderCancel(World(x), lock).0, S.ReaderCancel(World(x), lock).1) else x
    case ReleaseLock(lock) =>
      if lock < |x.s.readers| then WithWorld(x, S.ReleaseLock(World(x), lock).0) else x
    case StreamWorker(i, failure) =>
      if i < |x.s.tasks| && x.s.tasks[i].op in x.s.cells
      then WithWorld(x, S.WorkerAnswers(World(x), i, failure)) else x
    case DropStream(op) => WithWorld(x, S.DropStream(World(x), op))
    case DropReader(lock) => if lock < |x.s.readers| then WithWorld(x, S.DropReader(World(x), lock)) else x
    case _ => x
  }

  ghost function Do(x: Sys, act: Act): Sys
    decreases act, 1
  {
    if IsPromiseAct(act) then DoPromise(x, act)
    else if IsReaderAct(act) then DoReader(x, act)
    else if act.Abort? then
      if act.reader < |x.f.natives| then DoAbort(x, act.reader, act.now, act.onAbort, act.onLoadend) else x
    else if act.ShutDown? then ShutDownAll(x)
    else DoStream(x, act)
  }

  /** `abort()` with the handlers of its two events. */
  ghost function DoAbort(x: Sys, r: nat, now: int, onAbort: Script, onLoadend: Script): Sys
    requires r < |x.f.natives|
    decreases Abort(r, now, onAbort, onLoadend), 0
  {
    var (m1, fr) := R.AbortCall(Room(x), r, now);
    var x1 := WithRoom(x, m1);
    if fr.None? then x1
    else
      var x2 := RunScript(x1, onAbort);
      var (m3, last) := AbortRest(x2, fr.value);
      var x3 := WithRoom(x2, m3);
      if last.None? then x3 else RunScript(x3, onLoadend)
  }

  /** The part of `abort()` between its two events. */
  function AbortRest(x: Sys, fr: R.Frame): (R.Room, Option<R.Frame>) {
    if fr.pause.AfterAbort?
    then R.ResumeAbort(Room(x), fr.reader, fr.generation, fr.now, fr.pause.loaded, fr.pause.total)
    else (Room(x), None)
  }

  ghost function RunScript(x: Sys, script: Script): Sys
    decreases script, 2
  {
    match script
    case Stop => x
    case Then(act, rest) => RunScript(Do(x, act), rest)
  }

  // -------------------------------------------------------------------- steps

  datatype Step =
    | Call(act: Act)
    | RunPromiseJob
    | RunJob(now: int, jobSubmit: Option<SubmitError>, packError: Option<FileApiError>, handlers: Script)
    | Poll(budget: Option<nat>, first: seq<nat>)
    | Turn(submit: Option<SubmitError>, packFails: bool, second: seq<nat>)

  /**
    One FileReading job. It fires at most one event, whose handlers are any
    script; what waited for them then runs to the end of the job.
  */
  ghost function Job(x: Sys, now: int, submit: Option<SubmitError>, packError: Option<FileApiError>,
                     handlers: Script): Sys
    requires x.f.jobs != []
  {
    var m := R.Room(x.b, x.f.(jobs := x.f.jobs[1..]));
    var (m1, fr) := R.JobEnter(m, x.f.jobs[0], now, submit, packError);
    var x1 := WithRoom(x, m1);
    if fr.None? then x1 else Handled(x1, fr.value, submit, packError, handlers).0
  }

  /** The handlers of one event, then the frame that waited for them. */
  ghost function Handled(x: Sys, fr: R.Frame, submit: Option<SubmitError>, packError: Option<FileApiError>,
                         handlers: Script): (Sys, Option<R.Frame>)
  {
    var x1 := RunScript(x, handlers);
    var (m, next) := R.Resume(Room(x1), fr, submit, packError);
    (WithRoom(x1, m), next)
  }

  /** The start of `poll_io`: a cleanup sweep, then the reader completions are taken. */
  function PollStart(x: Sys, budget: Option<nat>, ids: seq<nat>): Sys {
    var w := S.DrainCleanups(World(x), ids);
    var (b', batch) := TakeReader(w.b);
    WithWorld(x, w).(b := b', phase := ReaderDrain(batch, 0, budget))
  }

  predicate OverBudget(settled: nat, budget: Option<nat>) {
    budget.Some? && settled >= budget.value
  }

  /** One turn of the first loop: over budget back into the queue, else at most one job. */
  function ReaderTurn(x: Sys): Sys
    requires x.phase.ReaderDrain?
  {
    var ReaderDrain(batch, settled, budget) := x.phase;
    if batch == [] then
      var (b', next) := TakeStream(x.b);
      x.(b := b', phase := StreamDrain(next, settled))
    else if OverBudget(settled, budget) then
      x.(b := RequeueReader(x.b, batch[0]), phase := ReaderDrain(batch[1..], settled, budget))
    else if x.b.shutdown then
      WithRoom(x, R.DropForShutdown(Room(x), batch[0].op)).(phase := ReaderDrain(batch[1..], settled, budget))
    else
      var m := R.Settle(Room(x), batch[0]);
      var jobs := if |m.f.jobs| > |x.f.jobs| then 1 else 0;
      WithRoom(x, m).(phase := ReaderDrain(batch[1..], settled + jobs, budget))
  }

  /** One turn of the second loop, and the second sweep after it. */
  function StreamTurn(x: Sys, submit: Option<SubmitError>, packFails: bool, ids: seq<nat>): Sys
    requires x.phase.StreamDrain?
  {
    var StreamDrain(batch, count) := x.phase;
    if batch == [] then
      var w := S.DrainCleanups(World(x), ids);
      var (b', next) := TakeWhole(w.b);
      WithWorld(x, w).(b := b', phase := WholeDrain(next, count))
    else if x.b.shutdown then
      WithWorld(x, S.DropForShutdown(World(x), batch[0].op)).(phase := StreamDrain(batch[1..], count))
    else
      WithWorld(x, S.Settle(World(x), batch[0], submit, packFails))
        .(phase := StreamDrain(batch[1..], count + if S.Lands(World(x), batch[0]) then 1 else 0))
  }

  /** One turn of the last loop. */
  function WholeTurn(x: Sys, packFails: bool): Sys
    requires x.phase.WholeDrain?
  {
    var WholeDrain(batch, count) := x.phase;
    if batch == [] then x.(phase := Idle)
    else if x.b.shutdown then
      x.(b := Unreserve(x.b, batch[0].op).0, phase := WholeDrain(batch[1..], count))
    else
      WithDesk(x, P.Settle(Desk(x), batch[0], packFails)).(phase := WholeDrain(batch[1..], count + 1))
  }

  /** Public calls, jobs and polls need the Boa thread idle; workers and the collector do not. */
  ghost function Advance(x: Sys, step: Step): Sys {
    match step
    case Call(act) => if x.phase.Idle? || IsEnvironment(act) then Do(x, act) else x
    case RunPromiseJob =>
      if x.phase.Idle? && x.q.jobs != [] then x.(q := J.RunHead(x.q)) else x
    case RunJob(now, submit, packError, handlers) =>
      if x.phase.Idle? && x.f.jobs != [] then Job(x, now, submit, packError, handlers) else x
    case Poll(budget, ids) => if x.phase.Idle? then PollStart(x, budget, ids) else x
    case Turn(submit, packFails, ids) =>
      match x.phase
      case Idle => x
      case ReaderDrain(_, _, _) => ReaderTurn(x)
      case StreamDrain(_, _) => StreamTurn(x, submit, packFails, ids)
      case WholeDrain(_, _) => WholeTurn(x, packFails)
  }

  ghost function After(x: Sys, steps: seq<Step>): Sys
    decreases |steps|
  {
    if steps == [] then x else After(Advance(x, steps[0]), steps[1..])
  }

  function Start(concurrency: nat, maxBytes: nat, chunkSize: nat): Sys {
    Sys(Bridge.Init(concurrency), P.PromiseState(maxBytes, {}, [], map[], []), R.InitReaders(chunkSize),
        S.InitStreams(chunkSize), J.EMPTY_QUEUE, Idle)
  }
}
