/** How many data answers one stream can get, over every run of a context. */
module StreamRuns {
  import opened Common
  import opened Bridge
  import opened Context
  import opened ContextLaws
  import opened ContextRuns
  import opened Settlements
  import S = Streams
  import SC = StreamCalls
  import SG = StreamGrowth
  import SL = StreamLaws
  import SR = StreamResults
  import SS = StreamSteps
  import Utf8

  /** This step settles a data answer of stream `op`: bytes that it can deliver. */
  predicate DataTurn(x: Sys, step: Step, op: nat) {
    && step.Turn? && x.phase.StreamDrain? && x.phase.stream != [] && x.phase.stream[0].op == op
    && op in x.s.ops && op in x.s.cells && x.phase.stream[0].kind.Chunk?
    && !(step.packFails && x.s.cells[op].mode.BytesMode?)
  }

  /** How many steps of the run do. */
  ghost function DataTurns(x: Sys, steps: seq<Step>, op: nat): nat
    decreases |steps|
  {
    if steps == [] then 0
    else (if DataTurn(x, steps[0], op) then 1 else 0) + DataTurns(Advance(x, steps[0]), steps[1..], op)
  }

  /** Whatever comes after the cursor has moved, it stays at least there. */
  lemma ChunkLoads(w: S.World, op: nat, number: nat, read: S.PendingRead, bytes: seq<Byte>,
                   submit: Option<SubmitError>, packFails: bool)
    requires op in w.s.cells && bytes != [] && !(packFails && read.mode.BytesMode?)
    ensures var w' := S.SettleChunk(w, op, number, read, bytes, submit, packFails);
      op in w'.s.cells && w'.s.cells[op].loaded >= w.s.cells[op].loaded + |bytes|
  {
    hide S.SubmitOrFail, S.Continue, Utf8.Absorb;
    var c := w.s.cells[op];
    var text := Utf8.Absorb(c.pending, bytes).0;
    if read.mode.BytesMode? {
      Loads(S.SettledWith(w, op, number, S.BytesCell(c, bytes), S.Value(bytes)), op, submit);
    } else if text == [] {
      Loads(S.PutBack(w, op, number, S.TextCell(c, bytes), read), op, submit);
    } else {
      Loads(S.SettledWith(w, op, number, S.TextCell(c, bytes), S.Text(text)), op, submit);
    }
  }

  lemma Loads(w: S.World, op: nat, submit: Option<SubmitError>)
    requires op in w.s.cells
    ensures op in S.SubmitOrFail(w, op, submit).s.cells && op in S.Continue(w, op, submit).s.cells
    ensures S.SubmitOrFail(w, op, submit).s.cells[op].loaded >= w.s.cells[op].loaded
    ensures S.Continue(w, op, submit).s.cells[op].loaded >= w.s.cells[op].loaded
  {
    hide S.SubmitOrFail, S.Continue;
    SG.SubmitGrew(w, op, submit);
  }

  lemma AnswerLoads(w: S.World, done: ChunkCompletion, rest: seq<ChunkCompletion>, submit: Option<SubmitError>,
                    packFails: bool)
    requires SL.StreamInv(w, [done] + rest) && done.op in w.s.ops && done.op in w.s.cells && done.kind.Chunk?
    requires !(packFails && w.s.cells[done.op].mode.BytesMode?)
    ensures var c, w' := w.s.cells[done.op], S.Settle(w, done, submit, packFails);
      && c.loaded < |c.blob| && 0 < c.chunkSize
      && done.op in w'.s.cells && w'.s.cells[done.op].loaded >= Min(c.loaded + c.chunkSize, |c.blob|)
  {
    hide SL.LiveHistory, SL.DeadHistory, S.SettleChunk, S.Settle;
    var op := done.op;
    SR.DataAdvances(w, done, rest);
    SC.AnswerMatches(w, done, rest);
    SS.PopDemands(w, op);
    SC.SettleForm(w, done, submit, packFails);
    SC.PoppedTask(w, op);
    ChunkLoads(SS.Popped(w, op), op, w.s.cells[op].queue[0], S.PendingRead(w.s.cells[op].mode, 1), done.kind.bytes,
               submit, packFails);
  }

  lemma BatchInv(x: Sys)
    requires SysInv(x, None) && x.phase.StreamDrain? && x.phase.stream != []
    ensures SL.StreamInv(World(x), x.phase.stream) && !x.b.shutdown
  {
  }

  lemma TurnLoads(x: Sys, step: Step, op: nat)
    requires SysInv(x, None) && DataTurn(x, step, op)
    ensures var c, x' := x.s.cells[op], Advance(x, step);
      && c.loaded < |c.blob| && 0 < c.chunkSize
      && op in x'.s.cells && x'.s.cells[op].loaded >= Min(c.loaded + c.chunkSize, |c.blob|)
  {
    hide SL.StreamInv, S.Settle, SysInv, S.Lands;
    var batch := x.phase.stream;
    BatchInv(x);
    assert batch == [batch[0]] + batch[1..];
    AnswerLoads(World(x), batch[0], batch[1..], step.submit, step.packFails);
  }

  lemma Next(loaded: nat, loaded': nat, n: nat, chunk: nat, size: nat)
    requires loaded < size && loaded' >= Min(loaded + chunk, size) && n > 0 && loaded' + (n - 1) * chunk < size
    ensures loaded + n * chunk < size
  {
    assert n * chunk == (n - 1) * chunk + chunk;
    assert (n - 1) * chunk >= 0;
  }

  /** A length divided by the chunk size, rounded up. */
  function ChunkCount(size: nat, chunk: nat): nat
    requires 0 < chunk
  {
    (size + chunk - 1) / chunk
  }

  lemma RoundedUp(n: nat, chunk: nat, size: nat)
    requires 0 < n && 0 < chunk && (n - 1) * chunk < size
    ensures n <= ChunkCount(size, chunk)
  {
    var q := ChunkCount(size, chunk);
    assert size + chunk - 1 == q * chunk + (size + chunk - 1) % chunk;
    if q <= n - 1 {
      Monotone(q, n - 1, chunk);
    }
  }

  lemma Monotone(a: nat, b: nat, chunk: nat)
    requires a <= b
    ensures a * chunk <= b * chunk
  {
  }

  /** From a state in which the stream exists. */
  lemma {:induction false} TurnsBounded(x: Sys, steps: seq<Step>, op: nat)
    requires SysInv(x, None) && JobsMatch(x) && op in x.s.cells
    ensures var n, c := DataTurns(x, steps, op), x.s.cells[op];
      n == 0 || (0 < c.chunkSize && c.loaded + (n - 1) * c.chunkSize < |c.blob|)
    decreases |steps|
  {
    hide SysInv, JobsMatch, Advance, DataTurn;
    if steps != [] {
      var x1 := Advance(x, steps[0]);
      AdvanceKeeps(x, steps[0]);
      AdvanceMatches(x, steps[0]);
      assert SG.CellGrew(x.s.cells[op], x1.s.cells[op]);
      TurnsBounded(x1, steps[1..], op);
      var n, c, c1 := DataTurns(x1, steps[1..], op), x.s.cells[op], x1.s.cells[op];
      if DataTurn(x, steps[0], op) {
        TurnFound(x, steps[0], op);
        TurnLoads(x, steps[0], op);
        if n > 0 {
          Next(c.loaded, c1.loaded, n, c.chunkSize, |c.blob|);
        }
      }
    }
  }

  lemma TurnFound(x: Sys, step: Step, op: nat)
    requires DataTurn(x, step, op)
    ensures op in x.s.cells
  {
  }

  /**
    Over any run the data answers settled for one stream are at most as many as
    its blob has chunks, the last one included if it is short.
  */
  lemma {:induction false} DataAnswersAreFew(x: Sys, steps: seq<Step>, op: nat)
    requires SysInv(x, None) && JobsMatch(x)
    ensures var n, y := DataTurns(x, steps, op), After(x, steps);
      n > 0 ==>
        && op in y.s.cells && 0 < y.s.cells[op].chunkSize
        && n <= ChunkCount(|y.s.cells[op].blob|, y.s.cells[op].chunkSize)
    decreases |steps|
  {
    hide SysInv, JobsMatch, Advance, DataTurn;
    if op in x.s.cells {
      TurnsBounded(x, steps, op);
      RunMatches(x, steps);
      var n, c := DataTurns(x, steps, op), x.s.cells[op];
      assert SG.CellGrew(c, After(x, steps).s.cells[op]);
      if n > 0 {
        RoundedUp(n, c.chunkSize, |c.blob|);
      }
    } else if steps != [] {
      AdvanceKeeps(x, steps[0]);
      AdvanceMatches(x, steps[0]);
      if DataTurn(x, steps[0], op) {
        TurnFound(x, steps[0], op);
      }
      DataAnswersAreFew(Advance(x, steps[0]), steps[1..], op);
    }
  }

  /** So in every reached context, from its start on. */
  lemma ReachedAnswersAreFew(concurrency: nat, maxBytes: nat, chunkSize: nat, steps: seq<Step>, op: nat)
    ensures var x := Start(concurrency, maxBytes, chunkSize);
      var n, y := DataTurns(x, steps, op), After(x, steps);
      n > 0 ==>
        && op in y.s.cells && 0 < y.s.cells[op].chunkSize
        && n <= ChunkCount(|y.s.cells[op].blob|, y.s.cells[op].chunkSize)
  {
    hide SysInv, JobsMatch;
    StartInv(concurrency, maxBytes, chunkSize);
    StartMatches(concurrency, maxBytes, chunkSize);
    DataAnswersAreFew(Start(concurrency, maxBytes, chunkSize), steps, op);
  }
}
