/**
  The bridge as the object it is: fields changed in place under one lock, with
  the loops of its drains. Every method is one critical section and does what
  the matching function of module Bridge says.
*/
module Io {
  import opened Common
  import opened Bridge

  class IoBridge {
    const concurrencyLimit: nat
    const completionCap: nat
    var nextOperation: nat
    var idsExhausted: bool
    var active: nat
    var completions: map<nat, WholeCompletion>
    var completed: set<nat>
    var order: seq<nat>
    var tokens: set<nat>
    var liveDemand: set<nat>
    var readerCompletions: map<nat, seq<ChunkCompletion>>
    var streamCompletions: map<nat, seq<ChunkCompletion>>
    var chunkReservations: set<nat>
    var shutdown: bool

    ghost function State(): BridgeState
      reads this
    {
      BridgeState(concurrencyLimit, completionCap, nextOperation, idsExhausted, active, completions, completed,
                  order, tokens, liveDemand, readerCompletions, streamCompletions, chunkReservations, shutdown)
    }

    constructor (concurrency: nat)
      ensures State() == Init(concurrency)
    {
      var limit := Max(concurrency, 1);
      concurrencyLimit := limit;
      completionCap := Max(2 * limit, 64);
      nextOperation, idsExhausted, active := 1, false, 0;
      completions, completed, order, tokens, liveDemand := map[], {}, [], {}, {};
      readerCompletions, streamCompletions, chunkReservations, shutdown := map[], map[], {}, false;
    }

    method Reserve() returns (r: Result<nat, ReserveError>)
      modifies this
      ensures (State(), r) == Bridge.Reserve(old(State()))
    {
      if shutdown {
        return Err(ReserveError.Shutdown);
      }
      if idsExhausted {
        return Err(QuotaFull);
      }
      if active >= concurrencyLimit {
        return Err(QuotaFull);
      }
      if |completed| >= completionCap {
        return Err(CompletionFull);
      }
      var raw := nextOperation;
      nextOperation := if raw == U64_MAX then 0 else raw + 1;
      if raw == 0 || raw == U64_MAX {
        nextOperation := U64_MAX;
        idsExhausted := true;
        return Err(QuotaFull);
      }
      if raw in tokens || raw in completed {
        idsExhausted := true;
        return Err(QuotaFull);
      }
      tokens := tokens + {raw};
      order := order + [raw];
      active := active + 1;
      r := Ok(raw);
    }

    /** Finds the id's place in the submission order and closes the gap. */
    method RemoveSlot(id: nat)
      requires Increasing(order)
      modifies this`order
      ensures order == Without(old(order), {id})
    {
      var position := 0;
      while position < |order| && order[position] != id
        invariant position <= |order| && order == old(order)
        invariant forall i :: 0 <= i < position ==> order[i] != id
      {
        position := position + 1;
      }
      if position < |order| {
        RemoveAt(order, position);
        order := order[..position] + order[position + 1..];
      } else {
        WithoutNothing(order, {id});
      }
    }

    method Unreserve(id: nat) returns (released: bool)
      requires Increasing(order)
      modifies this
      ensures State() == Bridge.Unreserve(old(State()), id).0
      ensures released == (id in old(tokens))
    {
      released := id in tokens;
      if released {
        RemoveSlot(id);
        DropEntries(id);
        tokens := tokens - {id};
        active := if active == 0 then 0 else active - 1;
      }
    }

    /** Everything queued or noted for one operation goes with its slot. */
    method DropEntries(id: nat)
      modifies this`completed, this`completions, this`readerCompletions
      modifies this`streamCompletions, this`liveDemand, this`chunkReservations
      ensures completed == old(completed) - {id} && completions == old(completions) - {id}
      ensures readerCompletions == old(readerCompletions) - {id} && streamCompletions == old(streamCompletions) - {id}
      ensures liveDemand == old(liveDemand) - {id} && chunkReservations == old(chunkReservations) - {id}
    {
      completed := completed - {id};
      completions := completions - {id};
      readerCompletions := readerCompletions - {id};
      streamCompletions := streamCompletions - {id};
      liveDemand := liveDemand - {id};
      chunkReservations := chunkReservations - {id};
    }

    method SetStreamLiveDemand(id: nat, live: bool)
      modifies this
      ensures State() == SetLiveDemand(old(State()), id, live)
    {
      if id !in tokens {
        return;
      }
      if live {
        liveDemand := liveDemand + {id};
      } else {
        liveDemand := liveDemand - {id};
      }
    }

    method PushCompletion(completion: WholeCompletion)
      modifies this
      ensures State() == PushWhole(old(State()), completion)
    {
      var id := completion.op;
      if shutdown {
        return;
      }
      if id !in tokens {
        return;
      }
      if id in completed {
        return;
      }
      if |completed| >= completionCap {
        return;
      }
      completions := completions[id := completion];
      completed := completed + {id};
    }

    /** The longest completed prefix of the unmarked submission order, oldest first. */
    method TakeCompletions() returns (out: seq<WholeCompletion>)
      requires Increasing(order) && completed == completions.Keys
      modifies this`order, this`completions, this`completed
      ensures (State(), out) == TakeWhole(old(State()))
    {
      var wholeIds := UnmarkedIds();
      WithoutIncreasing(order, chunkReservations);
      ghost var b := State();
      out := TakePrefix(wholeIds);
      DropStale();
      ListedRest(b.completions, Elements(ReadyIds(b)), order);
    }

    /** One completion from the front of the line, with its place. */
    method TakeFront(id: nat) returns (found: seq<WholeCompletion>)
      requires Increasing(order) && id in completed && completed == completions.Keys
      modifies this`order, this`completions, this`completed
      ensures order == Without(old(order), {id})
      ensures completions == old(completions) - {id} && completed == completions.Keys
      ensures found == [old(completions)[id]]
    {
      RemoveSlot(id);
      found := [completions[id]];
      completions := completions - {id};
      completed := completed - {id};
    }

    /** Hands out completions while the line is served from its front. */
    method TakePrefix(wholeIds: seq<nat>) returns (out: seq<WholeCompletion>)
      requires Increasing(order) && Increasing(wholeIds) && completed == completions.Keys
      modifies this`order, this`completions, this`completed
      ensures var ids := wholeIds[..DonePrefix(wholeIds, old(completed))];
        && order == Without(old(order), Elements(ids))
        && completions == old(completions) - Elements(ids)
        && completed == completions.Keys
        && out == Collect(old(completions), ids)
    {
      out := [];
      var k := 0;
      WithoutNothing(order, Elements(wholeIds[..0]));
      while k < |wholeIds| && wholeIds[k] in completed
        invariant k <= DonePrefix(wholeIds, old(completed))
        invariant order == Without(old(order), Elements(wholeIds[..k])) && Increasing(order)
        invariant completions == old(completions) - Elements(wholeIds[..k])
        invariant completed == completions.Keys
        invariant out == Collect(old(completions), wholeIds[..k])
      {
        var id := wholeIds[k];
        TakeOne(old(order), old(completions), wholeIds, k);
        WithoutIncreasing(old(order), Elements(wholeIds[..k + 1]));
        var found := TakeFront(id);
        out := out + found;
        k := k + 1;
      }
      assert k == DonePrefix(wholeIds, old(completed)) by {
        if k < |wholeIds| {
          Unique(wholeIds, k);
        }
      }
    }

    /** The submission order without the ids of chunk operations. */
    method UnmarkedIds() returns (ids: seq<nat>)
      ensures ids == Without(order, chunkReservations)
    {
      ids := [];
      for i := 0 to |order|
        invariant ids == Without(order[..i], chunkReservations)
      {
        WithoutConcat(order[..i], [order[i]], chunkReservations);
        assert order[..i + 1] == order[..i] + [order[i]];
        assert [order[i]][1..] == [];
        if order[i] !in chunkReservations {
          ids := ids + [order[i]];
        }
      }
      assert order[..|order|] == order;
    }

    /** Completions that lost their place in the order are dropped. */
    method DropStale()
      requires completed == completions.Keys
      modifies this`completions, this`completed
      ensures completions == Listed(old(completions), order)
      ensures completed == completions.Keys
    {
      var stale := set id | id in completions && id !in order;
      while stale != {}
        invariant completed == completions.Keys
        invariant stale == set id | id in completions && id !in order
        invariant forall id :: id in completions ==> id in old(completions) && completions[id] == old(completions)[id]
        invariant forall id :: id in old(completions) && id in order ==> id in completions
        decreases stale
      {
        var id :| id in stale;
        completions := completions - {id};
        completed := completed - {id};
        stale := stale - {id};
      }
      forall id | id in completions
        ensures id in order
      {
        assert id !in stale;
      }
    }

    method PushReaderCompletion(completion: ChunkCompletion)
      modifies this
      ensures State() == PushReader(old(State()), completion)
    {
      var id := completion.op;
      if shutdown || id !in tokens {
        return;
      }
      chunkReservations := chunkReservations + {id};
      if id !in readerCompletions {
        readerCompletions := readerCompletions[id := []];
      }
      readerCompletions := readerCompletions[id := readerCompletions[id] + [completion]];
    }

    method RequeueReaderCompletion(completion: ChunkCompletion)
      modifies this
      ensures State() == RequeueReader(old(State()), completion)
    {
      var id := completion.op;
      if shutdown || id !in tokens {
        return;
      }
      if id !in readerCompletions {
        readerCompletions := readerCompletions[id := []];
      }
      readerCompletions := readerCompletions[id := [completion] + readerCompletions[id]];
    }

    method PushStreamCompletion(completion: ChunkCompletion)
      modifies this
      ensures State() == PushStream(old(State()), completion)
    {
      var id := completion.op;
      if shutdown || id !in tokens {
        return;
      }
      chunkReservations := chunkReservations + {id};
      if id !in streamCompletions {
        streamCompletions := streamCompletions[id := []];
      }
      streamCompletions := streamCompletions[id := streamCompletions[id] + [completion]];
    }

    method TakeReaderCompletions() returns (out: seq<ChunkCompletion>)
      requires Increasing(order)
      modifies this
      ensures (State(), out) == TakeReader(old(State()))
    {
      out, readerCompletions := DrainQueues(readerCompletions, order);
    }

    method TakeStreamCompletions() returns (out: seq<ChunkCompletion>)
      requires Increasing(order)
      modifies this
      ensures (State(), out) == TakeStream(old(State()))
    {
      out, streamCompletions := DrainQueues(streamCompletions, order);
    }

    method ShutDown()
      modifies this
      ensures State() == Bridge.ShutDown(old(State()))
    {
      shutdown := true;
      tokens := {};
      DropAll();
      order := [];
      active := 0;
    }

    method DropAll()
      modifies this`completed, this`completions, this`readerCompletions
      modifies this`streamCompletions, this`liveDemand, this`chunkReservations
      ensures completed == {} && completions == map[] && readerCompletions == map[]
      ensures streamCompletions == map[] && liveDemand == {} && chunkReservations == {}
    {
      completions, completed := map[], {};
      readerCompletions, streamCompletions := map[], map[];
      liveDemand, chunkReservations := {}, {};
    }
  }

  /** Pops every ordered queue empty, front first, then keeps only queues that still matter: none. */
  method DrainQueues(queues: map<nat, seq<ChunkCompletion>>, order: seq<nat>)
    returns (out: seq<ChunkCompletion>, kept: map<nat, seq<ChunkCompletion>>)
    requires Increasing(order)
    ensures out == Drained(queues, order) && kept == map[]
  {
    out, kept := [], queues;
    for i := 0 to |order|
      invariant out == Drained(queues, order[..i])
      invariant kept.Keys == queues.Keys
      invariant forall j :: 0 <= j < i && order[j] in kept ==> kept[order[j]] == []
      invariant forall j :: i <= j < |order| ==> QueueOf(kept, order[j]) == QueueOf(queues, order[j])
    {
      var id := order[i];
      ghost var before := out;
      DrainedSnoc(queues, order, i);
      if id in kept {
        while kept[id] != []
          invariant kept.Keys == queues.Keys
          invariant out + kept[id] == before + QueueOf(queues, id)
          invariant forall j :: 0 <= j < i && order[j] in kept ==> kept[order[j]] == []
          invariant forall j :: i < j < |order| ==> QueueOf(kept, order[j]) == QueueOf(queues, order[j])
          decreases |kept[id]|
        {
          var queue := kept[id];
          assert out + queue == (out + [queue[0]]) + queue[1..];
          out := out + [queue[0]];
          kept := kept[id := queue[1..]];
        }
        assert out + [] == out;
      } else {
        assert before + [] == before;
      }
    }
    assert order[..|order|] == order;
    kept := kept - (set id | id in kept && (kept[id] == [] || id !in order));
  }

  lemma {:induction false} DrainedSnoc(queues: map<nat, seq<ChunkCompletion>>, ids: seq<nat>, i: nat)
    requires i < |ids|
    ensures Drained(queues, ids[..i + 1]) == Drained(queues, ids[..i]) + QueueOf(queues, ids[i])
    decreases i
  {
    if i == 0 {
      assert ids[..1][1..] == [] && ids[..0] == [];
      assert Drained(queues, []) == [];
    } else {
      DrainedSnoc(queues, ids[1..], i - 1);
      assert ids[..i + 1][1..] == ids[1..][..i];
      assert ids[..i][1..] == ids[1..][..i - 1];
    }
  }

  lemma {:induction false} CollectSnoc(completions: map<nat, WholeCompletion>, ids: seq<nat>, i: nat)
    requires i < |ids| && ids[i] in completions
    ensures Collect(completions, ids[..i + 1]) == Collect(completions, ids[..i]) + [completions[ids[i]]]
    decreases i
  {
    if i == 0 {
      assert ids[..1][1..] == [] && ids[..0] == [];
      assert Collect(completions, []) == [];
    } else {
      CollectSnoc(completions, ids[1..], i - 1);
      assert ids[..i + 1][1..] == ids[1..][..i];
      assert ids[..i][1..] == ids[1..][..i - 1];
    }
  }

  /** What left with the drained ids is not missed among the listed ones. */
  lemma ListedRest(completions: map<nat, WholeCompletion>, gone: set<nat>, order: seq<nat>)
    requires forall id :: id in order ==> id !in gone
    ensures Listed(completions - gone, order) == Listed(completions, order)
  {
  }

  /** One more id taken from the front of the line. */
  lemma TakeOne(order: seq<nat>, completions: map<nat, WholeCompletion>, wholeIds: seq<nat>, k: nat)
    requires Increasing(wholeIds) && k < |wholeIds| && wholeIds[k] in completions
    requires k <= DonePrefix(wholeIds, completions.Keys)
    ensures wholeIds[k] !in Elements(wholeIds[..k])
    ensures k + 1 <= DonePrefix(wholeIds, completions.Keys)
    ensures Elements(wholeIds[..k + 1]) == Elements(wholeIds[..k]) + {wholeIds[k]}
    ensures Collect(completions, wholeIds[..k + 1]) == Collect(completions, wholeIds[..k]) + [completions[wholeIds[k]]]
    ensures Without(Without(order, Elements(wholeIds[..k])), {wholeIds[k]}) == Without(order, Elements(wholeIds[..k + 1]))
  {
    Unique(wholeIds, k);
    assert wholeIds[..k + 1] == wholeIds[..k] + [wholeIds[k]];
    CollectSnoc(completions, wholeIds, k);
    WithoutTwice(order, Elements(wholeIds[..k]), {wholeIds[k]});
  }
}
