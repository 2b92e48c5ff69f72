/**
  What a worker does with its task, over the segments of a blob. The machines
  of the other modules see a blob as its flat bytes and a worker as "exact bytes
  or an error"; here is why they may.
*/
module Workers {
  import opened Common
  import opened Bridge
  import opened Blob
  import P = Promises

  /**
    `execute` of a chunk task. `stopped` is what the shutdown and cancel checks
    saw first. Unless something fails the answer is the chunk of the flat
    content, and at the end of the blob no source is asked.
  */
  method ExecuteChunk(b: BlobData, offset: nat, len: nat, stopped: bool, visits: seq<Visit>)
    returns (kind: ChunkKind, ghost failure: Option<FileApiError>)
    requires ValidBlob(b) && |visits| == |b.segments|
    ensures kind == ChunkAnswer(Content(b.segments), offset, len, failure)
    ensures failure.None? <==>
      && !stopped
      && (offset < b.size && 0 < len ==>
            QuietBefore(b.segments, visits, |visits|, offset, Min(offset + len, b.size)))
  {
    failure := None;
    if stopped {
      return Failed(Cancelled), Some(Cancelled);
    }
    if offset == b.size {
      return Eof, None;
    }
    var end := Min(offset + len, b.size);
    if end <= offset {
      return Failed(InvalidRange), None;
    }
    var chunk := ReadBlobRange(b, offset, end, visits);
    if chunk.Err? {
      return Failed(chunk.error), Some(chunk.error);
    }
    kind := Chunk(chunk.value);
  }

  /**
    `execute` of a whole-blob task: the flat content or an error, as the
    promise machine's workers answer.
  */
  method ExecuteWhole(b: BlobData, limits: Limits, stopped: bool, visits: seq<Visit>)
    returns (result: Result<seq<Byte>, FileApiError>, ghost failure: Option<FileApiError>)
    requires ValidBlob(b) && |visits| == |b.segments|
    ensures result == P.WholeAnswer(Content(b.segments), failure)
    ensures failure.None? <==>
      !stopped && b.size <= limits.maxMaterialize && QuietBefore(b.segments, visits, |visits|, 0, b.size)
  {
    failure := None;
    if stopped {
      return Err(Cancelled), Some(Cancelled);
    }
    result := Materialize(b, limits, visits);
    if result.Err? {
      failure := Some(result.error);
    }
  }

  /** A whole read, a range read and chunk reads of the same blob agree on every byte. */
  lemma ReadersAgree(b: BlobData, chunkSize: nat, k: nat)
    requires ValidBlob(b) && 0 < chunkSize && k * chunkSize < b.size
    ensures var flat := Content(b.segments);
      && k < |Chunks(flat, chunkSize)|
      && ChunkAnswer(flat, k * chunkSize, chunkSize, None) == Chunk(Chunks(flat, chunkSize)[k])
      && Joined(Chunks(flat, chunkSize)) == flat
      && P.WholeAnswer(flat, None) == Ok(flat)
  {
    ChunkAt(Content(b.segments), chunkSize, k);
    ChunksJoin(Content(b.segments), chunkSize);
    assert (k + 1) * chunkSize == k * chunkSize + chunkSize;
  }
}
