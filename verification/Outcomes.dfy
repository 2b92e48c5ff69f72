/** What listeners and readers of streams get to see, in every context some run has led to. */
module Outcomes {
  import opened Common
  import opened Context
  import opened ContextLaws
  import opened Theorems
  import R = Readers
  import S = Streams
  import SL = StreamLaws
  import SR = StreamResults
  import T = Traces
  import Utf8

  // ------------------------------------------------------------------- events

  /** Two events of one generation, the earlier at `i`. */
  predicate Pair(log: seq<R.Event>, i: nat, j: nat) {
    i < j < |log| && log[i].generation == log[j].generation
  }

  /** After `load`, `error` or `abort` a generation has at most one more event, its `loadend`. */
  lemma OneTerminalEvent(x: Sys, i: nat, j: nat)
    requires Reached(x) && Pair(x.f.log, i, j) && T.Ends(x.f.log[i].kind)
    ensures var e, last := x.f.log[i], x.f.log[j];
      && last.kind.LoadEnd? && last.reader == e.reader && last.loaded == e.loaded && last.total == e.total
      && T.Silent(x.f.log, e.generation, i + 1, j) && T.Silent(x.f.log, e.generation, j + 1, |x.f.log|)
  {
    hide Reached;
    TracesUnbroken(x, x.f.log[i].generation);
    T.OnlyLoadendFollows(x.f.log, x.f.log[i].generation, i, j);
  }

  /** `loadend` comes only after the terminal event of its generation. */
  lemma LoadendComesLast(x: Sys, j: nat)
    requires Reached(x) && j < |x.f.log| && x.f.log[j].kind.LoadEnd?
    ensures exists i :: 0 <= i < j && x.f.log[i].generation == x.f.log[j].generation && T.Ends(x.f.log[i].kind)
  {
    hide Reached;
    TracesUnbroken(x, x.f.log[j].generation);
    T.LoadendHasTerminal(x.f.log, x.f.log[j].generation, j);
  }

  /** A generation starts with `loadstart`, or fails or is aborted before it; neither comes later. */
  lemma StartComesFirst(x: Sys, j: nat)
    requires Reached(x) && j < |x.f.log|
    ensures var e := x.f.log[j];
      && (T.Silent(x.f.log, e.generation, 0, j) ==> e.kind.LoadStart? || e.kind.Error? || e.kind.Abort?)
      && (e.kind.LoadStart? || e.kind.Abort? ==> T.Silent(x.f.log, e.generation, 0, j))
  {
    hide Reached;
    TracesUnbroken(x, x.f.log[j].generation);
    T.FirstEvent(x.f.log, x.f.log[j].generation, j);
  }

  /** `load` comes after `progress(total)`, for the same total. */
  lemma LoadComesAfterFinalProgress(x: Sys, j: nat)
    requires Reached(x) && j < |x.f.log| && x.f.log[j].kind.Load?
    ensures var e := x.f.log[j];
      && e.loaded == e.total
      && exists i :: 0 <= i < j && T.IsFinalProgress(x.f.log[i], e.generation, e.total)
  {
    hide Reached;
    TracesUnbroken(x, x.f.log[j].generation);
    T.LoadHasFinalProgress(x.f.log, x.f.log[j].generation, j);
  }

  /**
    Progress of a generation strictly rises, below the total until the last;
    neighbours before the final one are 50 ms apart, unless the clock read the
    one value that stands for "never".
  */
  lemma ProgressRises(x: Sys, i: nat, j: nat)
    requires Reached(x) && Pair(x.f.log, i, j) && x.f.log[i].kind.Progress? && x.f.log[j].kind.Progress?
    ensures var e, later := x.f.log[i], x.f.log[j];
      && e.loaded < later.loaded <= later.total == e.total
      && (T.Silent(x.f.log, e.generation, i + 1, j) && later.loaded < later.total ==>
            e.at == I64_MIN || e.at + 50 <= later.at)
  {
    hide Reached;
    var g := x.f.log[i].generation;
    TracesUnbroken(x, g);
    T.ProgressIncreases(x.f.log, g, i, j);
    if T.Silent(x.f.log, g, i + 1, j) && x.f.log[j].loaded < x.f.log[j].total {
      T.ProgressSpaced(x.f.log, g, i, j);
    }
  }

  // ------------------------------------------------------------------ streams

  /** The values a stream delivered, in the order of its `read()` calls. */
  function Delivered(x: Sys, op: nat): seq<S.Outcome> {
    SR.DataOf(SL.Outs(x.s.log, op))
  }

  /** Byte values join to exactly what was loaded; all but the last are full chunks and none is empty. */
  lemma StreamBytes(x: Sys, op: nat)
    requires Reached(x) && !x.b.shutdown && op in x.s.cells && x.s.cells[op].mode.BytesMode?
    ensures var c, data := x.s.cells[op], Delivered(x, op);
      && c.loaded <= |c.blob| && SR.BytesOf(data) == c.blob[..c.loaded]
      && (forall k :: 0 <= k < |data| ==> data[k].Value? && 0 < |data[k].bytes| <= c.chunkSize)
      && (forall k :: 0 <= k < |data| - 1 ==> |data[k].bytes| == c.chunkSize)
  {
    hide Reached, SL.StreamInv;
    StreamsReached(x);
    SR.DeliveredBytes(World(x), StreamBatch(x.phase), op);
  }

  /** Text values are never empty and join to the decoding, whatever the chunks were. */
  lemma StreamText(x: Sys, op: nat)
    requires Reached(x) && !x.b.shutdown && op in x.s.cells && x.s.cells[op].mode.TextMode?
    ensures var c, data := x.s.cells[op], Delivered(x, op);
      && c.loaded <= |c.blob|
      && (forall k :: 0 <= k < |data| ==> data[k].Text? && data[k].text != [])
      && SL.Joined(data) == (if op !in x.s.ops && SL.EndedAtEof(c) then Utf8.Decoded(c.blob)
                             else Utf8.Lossy(Utf8.Settled(c.blob[..c.loaded])))
  {
    hide Reached, SL.StreamInv;
    StreamsReached(x);
    SR.DeliveredText(World(x), StreamBatch(x.phase), op);
  }

  /** Every read settles at most once, in the order of the calls; of a stream that ended, all have. */
  lemma StreamReadsInOrder(x: Sys, op: nat)
    requires Reached(x) && !x.b.shutdown && op in x.s.cells
    ensures var settled, c := SL.Numbers(x.s.log, op), x.s.cells[op];
      && settled == SL.Upto(|settled|) && |settled| <= c.nextSeq
      && (if op in x.s.ops then settled + c.queue == SL.Upto(c.nextSeq) else |settled| == c.nextSeq)
  {
    hide Reached, SL.StreamInv;
    StreamsReached(x);
    SR.ReadsSettleInOrder(World(x), StreamBatch(x.phase), op);
  }

  /** A live stream has one request or answer under way exactly while a read is owed, and every owed read its resolvers. */
  lemma StreamOneRequest(x: Sys, op: nat)
    requires Reached(x) && !x.b.shutdown && op in x.s.ops
    ensures op in x.s.cells
    ensures var c := x.s.cells[op];
      && Increasing(c.queue)
      && (forall n :: n in c.queue <==> S.ReadKey(op, n) in x.s.demands)
      && (c.inFlight <==> c.queue != [])
      && SL.Work(World(x), StreamBatch(x.phase), op) == (if c.queue != [] then 1 else 0)
  {
    hide Reached, SL.StreamInv;
    StreamsReached(x);
    SR.OneRequest(World(x), StreamBatch(x.phase), op);
  }
}
