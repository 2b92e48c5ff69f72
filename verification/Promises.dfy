/**
  Promise-returning whole-blob reads: one slot and one task each, replied to by
  `poll_io` in submission order. The promises themselves settle in jobs.
*/
module Promises {
  import opened Common
  import opened Bridge

  /** A whole-blob task a worker has not answered yet. */
  datatype WholeTask = WholeTask(op: nat, blob: seq<Byte>)

  /**
    What the drain found out about one read, and queues a job for. A `late`
    reply is a worker's error: its job only queues the one that rejects.
  */
  datatype Reply = Reply(op: nat, result: Result<seq<Byte>, FileApiError>, late: bool)

  /**
    `pending` is the resolver table; `asked` remembers every blob ever
    submitted and `log` the replies in the order of their jobs, for the theorems.
  */
  datatype PromiseState = PromiseState(
    maxBytes: nat,
    pending: set<nat>,
    tasks: seq<WholeTask>,
    asked: map<nat, seq<Byte>>,
    log: seq<Reply>)

  datatype Desk = Desk(b: BridgeState, p: PromiseState)

  datatype ReadOutcome = RejectedNow(error: FileApiError) | Promised(op: nat)

  /** `read_promise`; `submit` is the executor's refusal, if any. */
  function ReadPromise(d: Desk, blob: seq<Byte>, submit: Option<SubmitError>): (Desk, ReadOutcome) {
    if d.b.shutdown then (d, RejectedNow(Cancelled))
    else if |blob| > d.p.maxBytes then (d, RejectedNow(ResourceLimit))
    else
      var (b1, reserved) := Reserve(d.b);
      match reserved
      case Err(e) => (d.(b := b1), RejectedNow(if e.Shutdown? then Cancelled else TooManyReads))
      case Ok(op) =>
        var p1 := d.p.(pending := d.p.pending + {op}, asked := d.p.asked[op := blob]);
        if submit.Some? then
          (Desk(Unreserve(b1, op).0, p1.(pending := p1.pending - {op})), RejectedNow(SubmitFailure(submit.value)))
        else
          (Desk(b1, p1.(tasks := p1.tasks + [WholeTask(op, blob)])), Promised(op))
  }

  /** What a worker says: the exact bytes, or the source's error. */
  function WholeAnswer(blob: seq<Byte>, failure: Option<FileApiError>): Result<seq<Byte>, FileApiError> {
    if failure.Some? then Err(failure.value) else Ok(blob)
  }

  /** A worker answers task `i`. */
  function WorkerAnswers(d: Desk, i: nat, failure: Option<FileApiError>): Desk
    requires i < |d.p.tasks|
  {
    var t := d.p.tasks[i];
    Desk(PushWhole(d.b, WholeCompletion(t.op, WholeAnswer(t.blob, failure))),
         d.p.(tasks := d.p.tasks[..i] + d.p.tasks[i + 1..]))
  }

  /** One turn of the last `poll_io` loop: release the slot, take the resolvers, queue a job. */
  function Settle(d: Desk, done: WholeCompletion, packFails: bool): Desk {
    var b1 := Unreserve(d.b, done.op).0;
    if done.op !in d.p.pending then d.(b := b1)
    else
      var result := if done.result.Ok? && packFails then Err(Internal) else done.result;
      Desk(b1, d.p.(pending := d.p.pending - {done.op}, log := d.p.log + [Reply(done.op, result, done.result.Err?)]))
  }

  // ---------------------------------------------------------------- invariant

  function TaskOp(t: WholeTask): nat {
    t.op
  }

  function TasksOf(tasks: seq<WholeTask>, op: nat): seq<WholeTask> {
    Picked(tasks, TaskOp, op)
  }

  function BatchIds(batch: seq<WholeCompletion>): (r: seq<nat>)
    ensures |r| == |batch|
  {
    seq(|batch|, i requires 0 <= i < |batch| => batch[i].op)
  }

  function LogIds(log: seq<Reply>): (r: seq<nat>)
    ensures |r| == |log|
  {
    seq(|log|, i requires 0 <= i < |log| => log[i].op)
  }

  /** `answer` is what a truthful worker says about `op`, or an error. */
  predicate Truthful(p: PromiseState, op: nat, answer: Result<seq<Byte>, FileApiError>) {
    op in p.asked && (answer.Ok? ==> answer.value == p.asked[op])
  }

  /** A pending promise owns a slot, and one of task, queued or drained completion. */
  ghost predicate PendingOk(d: Desk, batch: seq<WholeCompletion>, op: nat) {
    var v := At(d.b, op);
    var drained := op in BatchIds(batch);
    && op in d.p.asked && 0 < op < d.b.next
    && v.token && !v.marked && !v.live && v.readerQ == [] && v.streamQ == []
    && v.ordered == !drained
    && |TasksOf(d.p.tasks, op)| == (if v.whole.None? && !drained then 1 else 0)
    && (drained ==> v.whole.None?)
    && (forall t :: t in TasksOf(d.p.tasks, op) ==> t.blob == d.p.asked[op])
    && (v.whole.Some? ==> Truthful(d.p, op, v.whole.value.result))
  }

  ghost predicate SettledOk(d: Desk, batch: seq<WholeCompletion>, op: nat) {
    TasksOf(d.p.tasks, op) == [] && op !in BatchIds(batch)
  }

  ghost predicate Local(d: Desk, batch: seq<WholeCompletion>, op: nat) {
    if op in d.p.pending then PendingOk(d, batch, op) else SettledOk(d, batch, op)
  }

  /** Settled, then drained, then waiting: three stretches of one line. */
  ghost predicate InLine(d: Desk, batch: seq<WholeCompletion>) {
    var gone := LogIds(d.p.log) + BatchIds(batch);
    Increasing(gone) && Younger(d.b, LastOr(gone, 0))
  }

  /** Every answer drained or settled is a truthful one, and settling is final. */
  ghost predicate ResultsOk(d: Desk, batch: seq<WholeCompletion>) {
    && (forall i :: 0 <= i < |batch| ==> Truthful(d.p, batch[i].op, batch[i].result))
    && (forall i :: 0 <= i < |d.p.log| ==> Truthful(d.p, d.p.log[i].op, d.p.log[i].result))
    && (forall i :: 0 <= i < |d.p.log| ==> d.p.log[i].op !in d.p.pending && d.p.log[i].op < d.b.next)
  }

  ghost predicate PromiseInv(d: Desk, batch: seq<WholeCompletion>) {
    && Valid(d.b) && !d.b.shutdown
    && (forall op :: Local(d, batch, op))
    && d.b.completions.Keys <= d.p.pending
    && ResultsOk(d, batch)
    && InLine(d, batch)
  }

  // ------------------------------------------------------------------- frames

  ghost predicate SameAt(d: Desk, batch: seq<WholeCompletion>, d': Desk, batch': seq<WholeCompletion>, x: nat) {
    && (x in d.p.pending <==> x in d'.p.pending)
    && (x in d.p.pending ==> At(d'.b, x) == At(d.b, x))
    && (x in d.p.asked ==> x in d'.p.asked && d'.p.asked[x] == d.p.asked[x])
    && TasksOf(d'.p.tasks, x) == TasksOf(d.p.tasks, x)
    && (x in BatchIds(batch') <==> x in BatchIds(batch))
  }

  lemma Frame(d: Desk, batch: seq<WholeCompletion>, d': Desk, batch': seq<WholeCompletion>, x: nat)
    requires Local(d, batch, x) && SameAt(d, batch, d', batch', x) && d.b.next <= d'.b.next
    ensures Local(d', batch', x)
  {
  }

  /** A step about `op` alone needs to look at `op` alone. */
  lemma Rebuild(d: Desk, batch: seq<WholeCompletion>, d': Desk, batch': seq<WholeCompletion>, op: nat)
    requires PromiseInv(d, batch) && d.b.next <= d'.b.next
    requires Valid(d'.b) && !d'.b.shutdown && d'.b.completions.Keys <= d'.p.pending
    requires forall x :: x != op ==> SameAt(d, batch, d', batch', x)
    requires Local(d', batch', op) && ResultsOk(d', batch') && InLine(d', batch')
    ensures PromiseInv(d', batch')
  {
    forall x ensures Local(d', batch', x) {
      if x != op {
        Frame(d, batch, d', batch', x);
      }
    }
  }

  /** Other clients move the bridge at other ids; the line only gets younger. */
  lemma OtherClientMoved(d: Desk, b': BridgeState, batch: seq<WholeCompletion>)
    requires PromiseInv(d, batch)
    requires Valid(b') && !b'.shutdown && d.b.next <= b'.next
    requires forall x :: x in d.p.pending ==> At(b', x) == At(d.b, x)
    requires b'.completions.Keys <= d.b.completions.Keys
    requires Younger(b', LastOr(LogIds(d.p.log) + BatchIds(batch), 0))
    ensures PromiseInv(d.(b := b'), batch)
  {
    forall x ensures Local(d.(b := b'), batch, x) {
      assert Local(d, batch, x);
      Frame(d, batch, d.(b := b'), batch, x);
    }
  }

  // -------------------------------------------------------------------- steps

  /** An id not minted yet is nowhere in the line. */
  lemma NotYetAsked(d: Desk, batch: seq<WholeCompletion>, op: nat)
    requires PromiseInv(d, batch) && d.b.next <= op
    ensures op !in d.p.pending
    ensures forall i :: 0 <= i < |batch| ==> batch[i].op != op
    ensures forall i :: 0 <= i < |d.p.log| ==> d.p.log[i].op != op
  {
    assert Local(d, batch, op);
    forall i | 0 <= i < |batch| ensures batch[i].op != op {
      assert BatchIds(batch)[i] == batch[i].op;
    }
  }

  lemma FreshResults(d: Desk, batch: seq<WholeCompletion>, d': Desk, blob: seq<Byte>)
    requires PromiseInv(d, batch) && d.b.next <= d'.b.next
    requires d'.p.asked == d.p.asked[d.b.next := blob] && d'.p.log == d.p.log
    requires d'.p.pending <= d.p.pending + {d.b.next}
    ensures ResultsOk(d', batch)
  {
    NotYetAsked(d, batch, d.b.next);
  }

  /** The desk after a read over `blob` got id `b.next` and its task was accepted. */
  function Accepted(d: Desk, blob: seq<Byte>): Desk {
    var op := d.b.next;
    Desk(Granted(d.b), d.p.(pending := d.p.pending + {op}, asked := d.p.asked[op := blob],
                            tasks := d.p.tasks + [WholeTask(op, blob)]))
  }

  lemma AcceptedTasks(d: Desk, blob: seq<Byte>)
    ensures var op := d.b.next;
      forall x :: TasksOf(Accepted(d, blob).p.tasks, x)
               == TasksOf(d.p.tasks, x) + (if x == op then [WholeTask(op, blob)] else [])
  {
    var t := WholeTask(d.b.next, blob);
    forall x ensures TasksOf(d.p.tasks + [t], x) == TasksOf(d.p.tasks, x) + (if x == t.op then [t] else []) {
      PickedAppend(d.p.tasks, t, TaskOp, x);
    }
  }

  lemma AcceptedKeeps(d: Desk, batch: seq<WholeCompletion>, blob: seq<Byte>)
    requires PromiseInv(d, batch) && d.b.active < d.b.limit && d.b.next != U64_MAX
    ensures PromiseInv(Accepted(d, blob), batch)
  {
    var op := d.b.next;
    var d' := Accepted(d, blob);
    GrantedViews(d.b);
    GrantedValid(d.b);
    assert Local(d, batch, op);
    AcceptedTasks(d, blob);
    FreshResults(d, batch, d', blob);
    assert TasksOf(d.p.tasks, op) == [];
    Rebuild(d, batch, d', batch, op);
  }

  /** A refused task leaves the line as it was, one id further on. */
  function Refused(d: Desk, blob: seq<Byte>): Desk {
    Desk(Unreserve(Granted(d.b), d.b.next).0, d.p.(asked := d.p.asked[d.b.next := blob]))
  }

  lemma RefusedKeeps(d: Desk, batch: seq<WholeCompletion>, blob: seq<Byte>)
    requires PromiseInv(d, batch) && d.b.active < d.b.limit && d.b.next != U64_MAX
    ensures PromiseInv(Refused(d, blob), batch)
  {
    GrantedViews(d.b);
    GrantedValid(d.b);
    UnreserveKeeps(Granted(d.b), d.b.next);
    assert Local(d, batch, d.b.next);
    FreshResults(d, batch, Refused(d, blob), blob);
    Rebuild(d, batch, Refused(d, blob), batch, d.b.next);
  }

  /**
    A promise read is owed an answer exactly when the runtime is open, the blob
    fits, a slot is free and the executor takes the task; otherwise it is
    rejected on the spot, with the reason the source gives, and holds nothing.
  */
  lemma ReadPromiseOutcome(d: Desk, batch: seq<WholeCompletion>, blob: seq<Byte>, submit: Option<SubmitError>)
    requires PromiseInv(d, batch)
    ensures var (d', r) := ReadPromise(d, blob, submit);
      var granted := |blob| <= d.p.maxBytes && Reserve(d.b).1.Ok?;
      && (r == Promised(d.b.next) <==> granted && submit.None?)
      && (granted && submit.None? ==> d' == Accepted(d, blob))
      && (granted && submit.Some? ==> r == RejectedNow(SubmitFailure(submit.value)) && d'.b.tokens == d.b.tokens
                                      && d'.p == Refused(d, blob).p)
      && (!granted ==> r == RejectedNow(if |blob| > d.p.maxBytes then ResourceLimit else TooManyReads)
                       && d'.p == d.p && d'.b.tokens == d.b.tokens)
      && PromiseInv(d', batch)
  {
    ReserveOutcome(d.b);
    var d' := ReadPromise(d, blob, submit).0;
    if |blob| <= d.p.maxBytes && Reserve(d.b).1.Ok? {
      assert d.b.next !in d.p.pending by {
        assert Local(d, batch, d.b.next);
      }
      if submit.None? {
        AcceptedKeeps(d, batch, blob);
      } else {
        RefusedKeeps(d, batch, blob);
        assert d'.p.pending == d.p.pending;
        assert d' == Refused(d, blob);
      }
    } else {
      OtherClientMoved(d, d'.b, batch);
    }
  }

  lemma WorkerAnswersKeeps(d: Desk, batch: seq<WholeCompletion>, i: nat, failure: Option<FileApiError>)
    requires PromiseInv(d, batch) && i < |d.p.tasks|
    ensures PromiseInv(WorkerAnswers(d, i, failure), batch)
  {
    var t := d.p.tasks[i];
    var d' := WorkerAnswers(d, i, failure);
    var c := WholeCompletion(t.op, WholeAnswer(t.blob, failure));
    PushWholeViews(d.b, c);
    PushWholeKeeps(d.b, c);
    forall x ensures x != t.op ==> SameAt(d, batch, d', batch, x) {
      PickedRemove(d.p.tasks, i, TaskOp, x);
    }
    PickedRemove(d.p.tasks, i, TaskOp, t.op);
    assert Local(d, batch, t.op);
    assert t in TasksOf(d.p.tasks, t.op);
    Rebuild(d, batch, d', batch, t.op);
  }

  lemma DrainedLine(d: Desk)
    requires PromiseInv(d, [])
    ensures var (b', batch) := TakeWhole(d.b);
      InLine(d.(b := b'), batch)
  {
    var (b', batch) := TakeWhole(d.b);
    var ids := ReadyIds(d.b);
    var gone := LogIds(d.p.log);
    TakeWholeKeeps(d.b);
    assert gone + BatchIds([]) == gone;
    TakeYounger(d.b, LastOr(gone, 0));
    assert BatchIds(batch) == ids;
    LineOrder(gone, ids);
  }

  lemma LineOrder(gone: seq<nat>, ids: seq<nat>)
    requires Increasing(gone) && Increasing(ids) && AllAbove(ids, LastOr(gone, 0))
    ensures Increasing(gone + ids) && LastOr(gone + ids, 0) == LastOr(ids, LastOr(gone, 0))
  {
    if gone != [] {
      assert forall x :: x in gone ==> x <= gone[|gone| - 1];
    }
    IncreasingConcat(gone, ids);
    if ids == [] {
      assert gone + ids == gone;
    }
  }

  lemma DrainedLocal(d: Desk, op: nat)
    requires PromiseInv(d, [])
    ensures var (b', batch) := TakeWhole(d.b);
      Local(d.(b := b'), batch, op)
  {
    var (b', batch) := TakeWhole(d.b);
    TakeWholeKeeps(d.b);
    assert BatchIds(batch) == ReadyIds(d.b);
    assert Local(d, [], op);
    assert BatchIds([]) == [];
    if op in ReadyIds(d.b) {
      assert op in d.b.completions;
    }
  }

  /** Draining moves the ready answers into the batch, in line, and nothing else. */
  lemma TakeWholeMoves(d: Desk)
    requires PromiseInv(d, [])
    ensures var (b', batch) := TakeWhole(d.b);
      PromiseInv(d.(b := b'), batch)
  {
    var (b', batch) := TakeWhole(d.b);
    TakeWholeKeeps(d.b);
    DrainedLine(d);
    forall op ensures Local(d.(b := b'), batch, op) {
      DrainedLocal(d, op);
    }
    forall i | 0 <= i < |batch| ensures Truthful(d.p, batch[i].op, batch[i].result) {
      var op := ReadyIds(d.b)[i];
      assert op in d.b.completions && batch[i] == d.b.completions[op];
      assert Local(d, [], op);
    }
  }

  lemma BatchHead(done: WholeCompletion, rest: seq<WholeCompletion>)
    ensures BatchIds([done] + rest) == [done.op] + BatchIds(rest)
  {
  }

  lemma SettledLine(d: Desk, done: WholeCompletion, rest: seq<WholeCompletion>, packFails: bool)
    requires PromiseInv(d, [done] + rest)
    ensures done.op in d.p.pending && done.op !in BatchIds(rest)
    ensures InLine(Settle(d, done, packFails), rest)
  {
    var d' := Settle(d, done, packFails);
    BatchHead(done, rest);
    var before := LogIds(d.p.log);
    assert Local(d, [done] + rest, done.op);
    assert done.op in BatchIds([done] + rest);
    assert LogIds(d'.p.log) == before + [done.op];
    assert before + ([done.op] + BatchIds(rest)) == (before + [done.op]) + BatchIds(rest);
    var gone := before + [done.op] + BatchIds(rest);
    forall i | 0 <= i < |BatchIds(rest)| ensures BatchIds(rest)[i] != done.op {
      assert gone[|before|] == done.op;
      assert gone[|before| + 1 + i] == BatchIds(rest)[i];
    }
  }

  lemma SettledResults(d: Desk, done: WholeCompletion, rest: seq<WholeCompletion>, packFails: bool)
    requires ResultsOk(d, [done] + rest) && done.op in d.p.pending && done.op < d.b.next
    ensures ResultsOk(Settle(d, done, packFails), rest)
  {
    assert ([done] + rest)[0] == done;
    assert forall i :: 0 <= i < |rest| ==> ([done] + rest)[i + 1] == rest[i];
  }

  /** Each turn of the drain settles one promise, which was pending, for good. */
  lemma SettleKeeps(d: Desk, done: WholeCompletion, rest: seq<WholeCompletion>, packFails: bool)
    requires PromiseInv(d, [done] + rest)
    ensures var d' := Settle(d, done, packFails);
      && PromiseInv(d', rest)
      && done.op in d.p.pending && done.op !in d'.p.pending && done.op !in d'.b.tokens
      && |d'.p.log| == |d.p.log| + 1
  {
    var d' := Settle(d, done, packFails);
    SettledLine(d, done, rest, packFails);
    UnreserveKeeps(d.b, done.op);
    BatchHead(done, rest);
    assert Local(d, [done] + rest, done.op);
    assert done.op in BatchIds([done] + rest);
    SettledResults(d, done, rest, packFails);
    Rebuild(d, [done] + rest, d', rest, done.op);
  }
}
