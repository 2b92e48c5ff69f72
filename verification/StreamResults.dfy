/** What the stream invariant means for whoever reads the stream. */
module StreamResults {
  import opened Common
  import opened Bridge
  import opened Streams
  import opened StreamLaws
  import opened StreamSteps
  import opened StreamCalls
  import Utf8

  /** All delivered byte values, joined. */
  function BytesOf(outs: seq<Outcome>): seq<Byte> {
    if outs == [] then []
    else
      var n := |outs| - 1;
      BytesOf(outs[..n]) + (if outs[n].Value? then outs[n].bytes else [])
  }

  lemma PrefixGrows(blob: seq<Byte>, lo: nat, size: nat)
    requires lo < |blob|
    ensures blob[..lo] + blob[Min(lo, |blob|)..Min(lo + size, |blob|)] == blob[..Min(lo + size, |blob|)]
  {
  }

  lemma BytesAppend(outs: seq<Outcome>, bytes: seq<Byte>)
    ensures BytesOf(outs + [Value(bytes)]) == BytesOf(outs) + bytes
  {
    assert (outs + [Value(bytes)])[..|outs|] == outs;
  }

  lemma JoinStep(blob: seq<Byte>, lo: nat, size: nat, front: seq<Outcome>, last: Outcome)
    requires lo < |blob| && BytesOf(front) == blob[..Min(lo, |blob|)]
    requires last == Value(blob[Min(lo, |blob|)..Min(lo + size, |blob|)])
    ensures BytesOf(front + [last]) == blob[..Min(lo + size, |blob|)]
  {
    PrefixGrows(blob, lo, size);
    BytesAppend(front, last.bytes);
  }

  ghost predicate Chunks(blob: seq<Byte>, size: nat, data: seq<Outcome>) {
    forall k :: 0 <= k < |data| ==> k * size < |blob| && data[k] == Value(ChunkAt(blob, size, k))
  }

  lemma LastChunk(blob: seq<Byte>, size: nat, data: seq<Outcome>)
    requires Chunks(blob, size, data) && data != []
    ensures var n := |data| - 1;
      var lo := n * size;
      && lo < |blob| && data[n] == Value(blob[Min(lo, |blob|)..Min(lo + size, |blob|)])
      && Chunks(blob, size, data[..n]) && |data| * size == lo + size
      && data == data[..n] + [data[n]]
  {
  }

  lemma {:induction false} ChunksJoin(blob: seq<Byte>, size: nat, data: seq<Outcome>, end: nat)
    requires Chunks(blob, size, data) && end == |data| * size
    ensures BytesOf(data) == blob[..Min(end, |blob|)]
    decreases |data|
  {
    if data == [] {
      assert end == 0;
    } else {
      LastChunk(blob, size, data);
      var front, last := data[..|data| - 1], data[|data| - 1];
      ChunksJoin(blob, size, front, end - size);
      JoinStep(blob, end - size, size, front, last);
    }
  }

  /** The values of a stream without the closing outcomes. */
  function DataOf(outs: seq<Outcome>): seq<Outcome> {
    outs[..Leading(outs)]
  }

  lemma LiveIsAllData(c: Cell, outs: seq<Outcome>)
    requires LiveHistory(c, outs)
    ensures DataOf(outs) == outs
  {
    LiveIsData(c, outs);
    LeadingIs(outs, |outs|);
  }

  /**
    Bytes mode, live or ended in any way: the values delivered so far, in read
    order, are the consecutive chunks of the blob; each is full but perhaps the
    last, none is empty, and together they are exactly `content[..loaded]`.
  */
  lemma DeliveredBytes(w: World, batch: seq<ChunkCompletion>, op: nat)
    requires StreamInv(w, batch) && op in w.s.cells && w.s.cells[op].mode.BytesMode?
    ensures var c := w.s.cells[op];
      var data := DataOf(Outs(w.s.log, op));
      && c.loaded <= |c.blob| && BytesOf(data) == c.blob[..c.loaded]
      && (forall k :: 0 <= k < |data| ==> data[k].Value? && 0 < |data[k].bytes| <= c.chunkSize)
      && (forall k :: 0 <= k < |data| - 1 ==> |data[k].bytes| == c.chunkSize)
  {
    var c := w.s.cells[op];
    var data := DataOf(Outs(w.s.log, op));
    HistoryHolds(w, batch, op);
    ChunksJoin(c.blob, c.chunkSize, data, |data| * c.chunkSize);
    ChunkSizes(c, data);
  }

  lemma HistoryHolds(w: World, batch: seq<ChunkCompletion>, op: nat)
    requires StreamInv(w, batch) && op in w.s.cells && w.s.cells[op].mode.BytesMode?
    ensures var c := w.s.cells[op];
      BytesSoFar(c, DataOf(Outs(w.s.log, op))) && ChunkInRange(c.chunkSize) && c.loaded <= |c.blob|
  {
    assert Local(w, batch, op);
    if op in w.s.ops {
      LiveIsAllData(w.s.cells[op], Outs(w.s.log, op));
    }
  }

  lemma ChunkSizes(c: Cell, data: seq<Outcome>)
    requires BytesSoFar(c, data) && 0 < c.chunkSize
    ensures forall k :: 0 <= k < |data| ==> data[k].Value? && 0 < |data[k].bytes| <= c.chunkSize
    ensures forall k :: 0 <= k < |data| - 1 ==> |data[k].bytes| == c.chunkSize
  {
    forall k | 0 <= k < |data| - 1 ensures |data[k].bytes| == c.chunkSize {
      assert (k + 1) * c.chunkSize < |c.blob|;
      FullChunk(c.blob, c.chunkSize, k);
    }
  }

  lemma FullChunk(blob: seq<Byte>, size: nat, k: nat)
    requires (k + 1) * size < |blob|
    ensures |ChunkAt(blob, size, k)| == size
  {
    assert (k + 1) * size == k * size + size;
  }

  /**
    Text mode: no value is empty; while the stream is live, or ended other than
    at its end, the values join to the decoding of what was loaded without its
    unfinished tail; at EOF they join to the chunk-independent decoding of the
    whole blob.
  */
  lemma DeliveredText(w: World, batch: seq<ChunkCompletion>, op: nat)
    requires StreamInv(w, batch) && op in w.s.cells && w.s.cells[op].mode.TextMode?
    ensures var c := w.s.cells[op];
      var data := DataOf(Outs(w.s.log, op));
      && c.loaded <= |c.blob|
      && (forall k :: 0 <= k < |data| ==> data[k].Text? && data[k].text != [])
      && Joined(data) == (if op !in w.s.ops && EndedAtEof(c) then Utf8.Decoded(c.blob)
                          else Utf8.Lossy(Utf8.Settled(c.blob[..c.loaded])))
  {
    assert Local(w, batch, op);
    if op in w.s.ops {
      LiveIsAllData(w.s.cells[op], Outs(w.s.log, op));
    }
  }

  /** Once one read was closed, every later one is closed the same way; at EOF that is `done`. */
  lemma ClosedForGood(w: World, batch: seq<ChunkCompletion>, op: nat, i: nat)
    requires StreamInv(w, batch) && op in w.s.cells
    requires Leading(Outs(w.s.log, op)) <= i < |Outs(w.s.log, op)|
    ensures op !in w.s.ops && Outs(w.s.log, op)[i] == Closing(w.s.cells[op])
    ensures EndedAtEof(w.s.cells[op]) ==> Outs(w.s.log, op)[i] == Done
  {
    assert Local(w, batch, op);
    if op in w.s.ops {
      LiveIsData(w.s.cells[op], Outs(w.s.log, op));
    }
  }

  /** Every read settles at most once and in the order of the `read()` calls. */
  lemma ReadsSettleInOrder(w: World, batch: seq<ChunkCompletion>, op: nat)
    requires StreamInv(w, batch)
    ensures var settled := Numbers(w.s.log, op);
      && settled == Upto(|settled|)
      && (op in w.s.cells ==> |settled| <= w.s.cells[op].nextSeq)
      && (op in w.s.cells && op !in w.s.ops ==> |settled| == w.s.cells[op].nextSeq)
      && (op in w.s.cells && op in w.s.ops ==> settled + w.s.cells[op].queue == Upto(w.s.cells[op].nextSeq))
  {
    assert Local(w, batch, op);
    var settled := Numbers(w.s.log, op);
    if op in w.s.cells && op in w.s.ops {
      var c := w.s.cells[op];
      assert settled + [] == settled;
      assert settled == Upto(c.nextSeq)[..|settled|];
      assert Upto(c.nextSeq)[..|settled|] == Upto(|settled|);
    }
  }

  /** A stream's requests: one exactly while a read is owed, and the resolvers match the queue. */
  lemma OneRequest(w: World, batch: seq<ChunkCompletion>, op: nat)
    requires StreamInv(w, batch) && op in w.s.ops
    ensures op in w.s.cells
    ensures var c := w.s.cells[op];
      && Increasing(c.queue)
      && (forall n :: n in c.queue <==> ReadKey(op, n) in w.s.demands)
      && (c.inFlight <==> c.queue != [])
      && Work(w, batch, op) == (if c.queue != [] then 1 else 0)
  {
    assert Local(w, batch, op);
    var c := w.s.cells[op];
    QueueIncreasing(Numbers(w.s.log, op) + [], c.queue, c.nextSeq);
  }

  /** A data answer to a live stream is the next full chunk of its blob, or the shorter last one. */
  lemma DataAdvances(w: World, done: ChunkCompletion, rest: seq<ChunkCompletion>)
    requires StreamInv(w, [done] + rest) && done.op in w.s.ops && done.kind.Chunk?
    ensures done.op in w.s.cells
    ensures var c := w.s.cells[done.op];
      && c.loaded < |c.blob| && |done.kind.bytes| == Min(c.chunkSize, |c.blob| - c.loaded) > 0
      && done.kind.bytes == c.blob[c.loaded..c.loaded + |done.kind.bytes|]
  {
    hide LiveHistory, DeadHistory;
    AnswerMatches(w, done, rest);
    NextChunk(w.s.cells[done.op], done.kind.bytes, done.op);
  }
}
