/**
  Small vocabulary shared by every module: bytes, results, the core error
  classes and a few facts about sequences of operation ids.
*/
module Common {
  type Byte = x: int | 0 <= x < 256

  const U64_MAX: nat := 0xFFFF_FFFF_FFFF_FFFF
  const I64_MIN: int := -0x8000_0000_0000_0000
  const I64_MAX: int := 0x7FFF_FFFF_FFFF_FFFF

  const MIN_CHUNK: nat := 16 * 1024
  const MAX_CHUNK: nat := 1024 * 1024

  /** A chunk size is refused outside 16 KiB to 1 MiB; it is never clamped. */
  predicate ChunkInRange(size: nat) {
    MIN_CHUNK <= size <= MAX_CHUNK
  }

  datatype Option<+T> = None | Some(value: T)

  datatype Result<+T, +E> = Ok(value: T) | Err(error: E) {
    predicate IsFailure() {
      Err?
    }

    function PropagateFailure<U>(): (r: Result<U, E>)
      requires Err?
    {
      Err(error)
    }

    function Extract(): T
      requires Ok?
    {
      value
    }
  }

  datatype FileApiError =
    | NotFound
    | UnsafeFile
    | TooManyReads
    | SnapshotChanged
    | FileLocked
    | PermissionDenied
    | ResourceLimit
    | Cancelled
    | InvalidRange
    | Internal

  function Min(a: int, b: int): int {
    if a <= b then a else b
  }

  function Max(a: int, b: int): int {
    if a <= b then b else a
  }

  /** Drops every element of `gone`, keeping the order of the rest. */
  function Without(ids: seq<nat>, gone: set<nat>): (r: seq<nat>)
    ensures forall id :: id in r <==> id in ids && id !in gone
  {
    if ids == [] then []
    else if ids[0] in gone then Without(ids[1..], gone)
    else [ids[0]] + Without(ids[1..], gone)
  }

  ghost predicate Increasing(ids: seq<nat>) {
    forall i, j :: 0 <= i < j < |ids| ==> ids[i] < ids[j]
  }

  ghost predicate AllAbove(ids: seq<nat>, bound: int) {
    forall id :: id in ids ==> bound < id
  }

  lemma IncreasingTail(ids: seq<nat>)
    requires Increasing(ids) && ids != []
    ensures Increasing(ids[1..]) && AllAbove(ids[1..], ids[0])
  {
    assert forall k :: 0 <= k < |ids[1..]| ==> ids[1..][k] == ids[k + 1];
  }

  lemma IncreasingCons(id: nat, rest: seq<nat>)
    requires Increasing(rest) && AllAbove(rest, id)
    ensures Increasing([id] + rest)
  {
    assert forall k :: 0 <= k < |rest| ==> rest[k] in rest;
  }

  lemma {:induction false} WithoutIncreasing(ids: seq<nat>, gone: set<nat>)
    requires Increasing(ids)
    ensures Increasing(Without(ids, gone))
  {
    if ids != [] {
      IncreasingTail(ids);
      WithoutIncreasing(ids[1..], gone);
      if ids[0] !in gone {
        IncreasingCons(ids[0], Without(ids[1..], gone));
      }
    }
  }

  lemma {:induction false} WithoutNothing(ids: seq<nat>, gone: set<nat>)
    requires forall id :: id in ids ==> id !in gone
    ensures Without(ids, gone) == ids
  {
    if ids != [] {
      WithoutNothing(ids[1..], gone);
    }
  }

  lemma {:induction false} WithoutTwice(ids: seq<nat>, a: set<nat>, b: set<nat>)
    ensures Without(Without(ids, a), b) == Without(ids, a + b)
  {
    if ids != [] {
      WithoutTwice(ids[1..], a, b);
    }
  }

  lemma {:induction false} WithoutConcat(a: seq<nat>, b: seq<nat>, gone: set<nat>)
    ensures Without(a + b, gone) == Without(a, gone) + Without(b, gone)
  {
    if a == [] {
      assert a + b == b;
    } else {
      assert (a + b)[1..] == a[1..] + b;
      WithoutConcat(a[1..], b, gone);
    }
  }

  lemma RemoveBetween(a: seq<nat>, x: nat, b: seq<nat>)
    requires x !in a && x !in b
    ensures Without(a + ([x] + b), {x}) == a + b
  {
    WithoutConcat(a, [x] + b, {x});
    assert ([x] + b)[1..] == b;
    WithoutNothing(a, {x});
    WithoutNothing(b, {x});
  }

  lemma Unique(ids: seq<nat>, k: nat)
    requires Increasing(ids) && k < |ids|
    ensures ids[k] !in ids[..k] && ids[k] !in ids[k + 1..]
  {
    var a, b := ids[..k], ids[k + 1..];
    forall i | 0 <= i < |a| ensures a[i] != ids[k] {
      assert a[i] == ids[i];
    }
    forall i | 0 <= i < |b| ensures b[i] != ids[k] {
      assert b[i] == ids[k + 1 + i];
    }
  }

  lemma Rejoin(ids: seq<nat>, k: nat)
    requires k < |ids|
    ensures ids == ids[..k] + ([ids[k]] + ids[k + 1..])
  {
  }

  /** Removing the one occurrence of an id is the same as filtering it out. */
  lemma RemoveAt(ids: seq<nat>, k: nat)
    requires Increasing(ids) && k < |ids|
    ensures ids[..k] + ids[k + 1..] == Without(ids, {ids[k]})
  {
    Unique(ids, k);
    RemoveBetween(ids[..k], ids[k], ids[k + 1..]);
    Rejoin(ids, k);
  }

  lemma IncreasingConcat(a: seq<nat>, b: seq<nat>)
    requires Increasing(a) && Increasing(b)
    requires forall x, y :: x in a && y in b ==> x < y
    ensures Increasing(a + b)
  {
    forall i, j | 0 <= i < j < |a + b|
      ensures (a + b)[i] < (a + b)[j]
    {
      if i < |a| <= j {
        assert a[i] in a && b[j - |a|] in b;
      }
    }
  }

  // ------------------------------------------------------- picking by a key

  /** The elements of `items` whose key is `k`, in order. */
  function Picked<T>(items: seq<T>, key: T -> nat, k: nat): (r: seq<T>)
    ensures forall i :: 0 <= i < |r| ==> key(r[i]) == k && r[i] in items
  {
    if items == [] then []
    else (if key(items[0]) == k then [items[0]] else []) + Picked(items[1..], key, k)
  }

  lemma {:induction false} PickedConcat<T>(a: seq<T>, b: seq<T>, key: T -> nat, k: nat)
    ensures Picked(a + b, key, k) == Picked(a, key, k) + Picked(b, key, k)
  {
    if a == [] {
      assert a + b == b;
    } else {
      assert (a + b)[1..] == a[1..] + b;
      PickedConcat(a[1..], b, key, k);
      assert Picked(a + b, key, k)
          == (if key(a[0]) == k then [a[0]] else []) + (Picked(a[1..], key, k) + Picked(b, key, k));
    }
  }

  lemma PickedOne<T>(x: T, key: T -> nat, k: nat)
    ensures Picked([x], key, k) == if key(x) == k then [x] else []
  {
    assert [x][1..] == [];
  }

  lemma PickedAppend<T>(a: seq<T>, x: T, key: T -> nat, k: nat)
    ensures Picked(a + [x], key, k) == Picked(a, key, k) + (if key(x) == k then [x] else [])
  {
    PickedConcat(a, [x], key, k);
    PickedOne(x, key, k);
  }

  lemma PickedAround<T>(a: seq<T>, x: T, b: seq<T>, key: T -> nat, k: nat)
    ensures Picked(a + [x] + b, key, k)
         == Picked(a, key, k) + (if key(x) == k then [x] else []) + Picked(b, key, k)
  {
    PickedConcat(a + [x], b, key, k);
    PickedAppend(a, x, key, k);
  }

  lemma JoinParts<T>(a: seq<T>, x: T, b: seq<T>)
    ensures |a + b| + 1 == |a + [x] + b| && x in a + [x] + b
    ensures forall y :: y in a + b ==> y in a + [x] + b
  {
    assert (a + [x] + b)[|a|] == x;
  }

  /** Taking out element `i` takes one element off its own key and nothing off the others. */
  lemma PickedRemove<T>(items: seq<T>, i: nat, key: T -> nat, k: nat)
    requires i < |items|
    ensures var rest := items[..i] + items[i + 1..];
      && (key(items[i]) != k ==> Picked(rest, key, k) == Picked(items, key, k))
      && (key(items[i]) == k ==> |Picked(rest, key, k)| + 1 == |Picked(items, key, k)|
                                 && items[i] in Picked(items, key, k)
                                 && forall x :: x in Picked(rest, key, k) ==> x in Picked(items, key, k))
  {
    var a, x, b := items[..i], items[i], items[i + 1..];
    assert items == a + [x] + b;
    PickedConcat(a, b, key, k);
    PickedAround(a, x, b, key, k);
    if key(x) == k {
      JoinParts(Picked(a, key, k), x, Picked(b, key, k));
    } else {
      assert Picked(a, key, k) + [] + Picked(b, key, k) == Picked(a, key, k) + Picked(b, key, k);
    }
  }
}
