/**
  The shutdown flag: an atomic `closed` bit and a list of closers behind a
  lock. Any number of `track` and `close` calls run at once; every load, store
  and lock operation of theirs is one step, and steps interleave freely. The
  closer a `track` call registers is named by the number of the call.
*/
module Lifecycle {
  import opened Common

  /** Where a call stands: what its next step does. */
  datatype Pc =
    | TrackLoad
    | TrackLock
    | TrackRecheck
    | TrackPush
    | TrackFire
    | TrackDone
    | CloseStore
    | CloseLock
    | CloseTake
    | CloseFire(todo: seq<nat>)
    | CloseDone

  datatype State = State(
    closed: bool,
    holder: Option<nat>,
    closers: seq<nat>,
    calls: seq<Pc>,
    fired: seq<nat>)

  function Start(): State {
    State(false, None, [], [], [])
  }

  predicate IsTrack(pc: Pc) {
    pc.TrackLoad? || pc.TrackLock? || pc.TrackRecheck? || pc.TrackPush? || pc.TrackFire? || pc.TrackDone?
  }

  predicate Returned(pc: Pc) {
    pc.TrackDone? || pc.CloseDone?
  }

  predicate InSection(pc: Pc) {
    pc.TrackRecheck? || pc.TrackPush? || pc.CloseTake?
  }

  /** A close call that has stored the bit but not yet taken the list. */
  predicate Closing(pc: Pc) {
    pc.CloseLock? || pc.CloseTake?
  }

  /** One step of call `k`. A call that waits for the lock stays where it is. */
  function Step(s: State, k: nat): State
    requires k < |s.calls|
  {
    match s.calls[k]
    case TrackLoad => s.(calls := s.calls[k := if s.closed then TrackFire else TrackLock])
    case TrackLock =>
      if s.holder.Some? then s else s.(holder := Some(k), calls := s.calls[k := TrackRecheck])
    case TrackRecheck =>
      if s.closed then s.(holder := None, calls := s.calls[k := TrackFire])
      else s.(calls := s.calls[k := TrackPush])
    case TrackPush => s.(holder := None, closers := s.closers + [k], calls := s.calls[k := TrackDone])
    case TrackFire => s.(fired := s.fired + [k], calls := s.calls[k := TrackDone])
    case TrackDone => s
    case CloseStore => s.(closed := true, calls := s.calls[k := CloseLock])
    case CloseLock =>
      if s.holder.Some? then s else s.(holder := Some(k), calls := s.calls[k := CloseTake])
    case CloseTake => s.(holder := None, closers := [], calls := s.calls[k := CloseFire(s.closers)])
    case CloseFire(todo) =>
      if todo == [] then s.(calls := s.calls[k := CloseDone])
      else s.(fired := s.fired + [todo[0]], calls := s.calls[k := CloseFire(todo[1..])])
    case CloseDone => s
  }

  datatype Act = CallTrack | CallClose | Go(call: nat)

  function Do(s: State, a: Act): State {
    match a
    case CallTrack => s.(calls := s.calls + [TrackLoad])
    case CallClose => s.(calls := s.calls + [CloseStore])
    case Go(k) => if k < |s.calls| then Step(s, k) else s
  }

  function Run(acts: seq<Act>): State {
    if acts == [] then Start() else Do(Run(acts[..|acts| - 1]), acts[|acts| - 1])
  }

  // -------------------------------------------------------------- conservation

  /** How often closer `c` occurs in a list. */
  function Times(closers: seq<nat>, c: nat): nat {
    if closers == [] then 0
    else Times(closers[..|closers| - 1], c) + (if closers[|closers| - 1] == c then 1 else 0)
  }

  /** How often call `k` must still fire closer `c` or hand it over. */
  function Share(pc: Pc, k: nat, c: nat): nat {
    if pc.CloseFire? then Times(pc.todo, c)
    else if IsTrack(pc) && !pc.TrackDone? && k == c then 1
    else 0
  }

  function Held(calls: seq<Pc>, c: nat): nat {
    if calls == [] then 0
    else Held(calls[..|calls| - 1], c) + Share(calls[|calls| - 1], |calls| - 1, c)
  }

  lemma {:induction false} TimesAround(a: seq<nat>, b: seq<nat>, c: nat)
    ensures Times(a + b, c) == Times(a, c) + Times(b, c)
    decreases |b|
  {
    if b == [] {
      assert a + b == a;
    } else {
      TimesAround(a, b[..|b| - 1], c);
      assert (a + b)[..|a + b| - 1] == a + b[..|b| - 1];
    }
  }

  lemma TimesNone(c: nat)
    ensures Times([], c) == 0
  {
  }

  lemma TimesOne(x: nat, c: nat)
    ensures Times([x], c) == if x == c then 1 else 0
  {
    assert [x][..0] == [];
  }

  lemma {:induction false} TimesIn(closers: seq<nat>, c: nat)
    requires c in closers
    ensures Times(closers, c) > 0
  {
    var n := |closers| - 1;
    if closers[n] != c {
      assert c in closers[..n];
      TimesIn(closers[..n], c);
    }
  }

  lemma {:induction false} HeldUpdate(calls: seq<Pc>, k: nat, pc: Pc, c: nat)
    requires k < |calls|
    ensures Held(calls[k := pc], c) + Share(calls[k], k, c) == Held(calls, c) + Share(pc, k, c)
    decreases |calls|
  {
    var n := |calls| - 1;
    if k == n {
      assert calls[k := pc][..n] == calls[..n];
    } else {
      HeldUpdate(calls[..n], k, pc, c);
      assert calls[k := pc][..n] == calls[..n][k := pc];
    }
  }

  lemma {:induction false} NothingHeld(calls: seq<Pc>, c: nat)
    requires forall k :: 0 <= k < |calls| ==> Returned(calls[k])
    ensures Held(calls, c) == 0
  {
    if calls != [] {
      NothingHeld(calls[..|calls| - 1], c);
    }
  }

  // ----------------------------------------------------------------- invariant

  /** Whether call `c` is a track call, counted once. */
  function Registered(calls: seq<Pc>, c: nat): nat {
    if c < |calls| && IsTrack(calls[c]) then 1 else 0
  }

  /** Every tracked closer is in exactly one place: not yet handed over, listed, taken, or fired. */
  ghost predicate ConservedFor(s: State, c: nat) {
    Times(s.fired, c) + Times(s.closers, c) + Held(s.calls, c) == Registered(s.calls, c)
  }

  ghost predicate Conserved(s: State) {
    forall c: nat :: ConservedFor(s, c)
  }

  ghost predicate Exclusive(s: State) {
    && (s.holder.Some? ==> s.holder.value < |s.calls|)
    && forall k :: 0 <= k < |s.calls| ==> (InSection(s.calls[k]) <==> s.holder == Some(k))
  }

  ghost predicate Pending(s: State) {
    s.closers != [] || exists k :: 0 <= k < |s.calls| && s.calls[k].TrackPush?
  }

  /** Once closed, whatever is or will be in the list has a close call coming for it. */
  ghost predicate Collected(s: State) {
    s.closed && Pending(s) ==> exists k :: 0 <= k < |s.calls| && Closing(s.calls[k])
  }

  ghost predicate QuietWhileOpen(s: State) {
    !s.closed ==>
      && s.fired == []
      && forall k :: 0 <= k < |s.calls| ==> s.calls[k].CloseStore? || (IsTrack(s.calls[k]) && !s.calls[k].TrackFire?)
  }

  ghost predicate Inv(s: State) {
    Conserved(s) && Exclusive(s) && Collected(s) && QuietWhileOpen(s)
  }

  lemma TimesHead(todo: seq<nat>, c: nat)
    requires todo != []
    ensures Times(todo, c) == Times([todo[0]], c) + Times(todo[1..], c)
  {
    TimesAround([todo[0]], todo[1..], c);
    assert [todo[0]] + todo[1..] == todo;
  }

  /** A step that touches neither list only passes the closer on within its call. */
  lemma MovesConserve(s: State, k: nat, c: nat)
    requires k < |s.calls| && ConservedFor(s, c)
    requires !s.calls[k].TrackPush? && !s.calls[k].TrackFire? && !s.calls[k].CloseFire?
    ensures ConservedFor(Step(s, k), c)
  {
    hide Held;
    HeldUpdate(s.calls, k, Step(s, k).calls[k], c);
  }

  lemma StepConserves(s: State, k: nat, c: nat)
    requires k < |s.calls| && ConservedFor(s, c)
    ensures ConservedFor(Step(s, k), c)
  {
    hide Held, Times;
    TimesNone(c);
    match s.calls[k] {
      case TrackPush =>
        HeldUpdate(s.calls, k, TrackDone, c);
        TimesAround(s.closers, [k], c);
        TimesOne(k, c);
      case TrackFire =>
        HeldUpdate(s.calls, k, TrackDone, c);
        TimesAround(s.fired, [k], c);
        TimesOne(k, c);
      case CloseFire(todo) =>
        if todo == [] {
          HeldUpdate(s.calls, k, CloseDone, c);
        } else {
          HeldUpdate(s.calls, k, CloseFire(todo[1..]), c);
          TimesHead(todo, c);
          TimesAround(s.fired, [todo[0]], c);
        }
      case _ =>
        MovesConserve(s, k, c);
    }
  }

  lemma StepExclusive(s: State, k: nat)
    requires k < |s.calls| && Exclusive(s)
    ensures Exclusive(Step(s, k))
  {
  }

  lemma StepQuiet(s: State, k: nat)
    requires k < |s.calls| && QuietWhileOpen(s)
    ensures QuietWhileOpen(Step(s, k))
  {
  }

  lemma StepCollects(s: State, k: nat)
    requires k < |s.calls| && Inv(s)
    ensures Collected(Step(s, k))
  {
    var t := Step(s, k);
    if s.calls[k].CloseTake? {
      assert forall j :: 0 <= j < |s.calls| && j != k ==> !InSection(s.calls[j]) && t.calls[j] == s.calls[j];
    } else if t.closed && Pending(t) {
      if s.calls[k].CloseStore? || s.calls[k].CloseLock? {
        assert Closing(t.calls[k]);
      } else {
        assert Pending(s) by {
          if t.closers == [] {
            var j :| 0 <= j < |t.calls| && t.calls[j].TrackPush?;
            assert s.calls[j].TrackPush?;
          } else if s.calls[k].TrackPush? {
          } else {
            assert s.closers == t.closers;
          }
        }
        var j :| 0 <= j < |s.calls| && Closing(s.calls[j]);
        assert t.calls[j] == s.calls[j];
      }
    }
  }

  lemma StepKeeps(s: State, k: nat)
    requires k < |s.calls| && Inv(s)
    ensures Inv(Step(s, k))
  {
    forall c: nat
      ensures ConservedFor(Step(s, k), c)
    {
      StepConserves(s, k, c);
    }
    StepExclusive(s, k);
    StepQuiet(s, k);
    StepCollects(s, k);
  }

  lemma CallKeeps(s: State, pc: Pc)
    requires Inv(s) && (pc.TrackLoad? || pc.CloseStore?)
    ensures Inv(s.(calls := s.calls + [pc]))
  {
    var t := s.(calls := s.calls + [pc]);
    assert t.calls[..|t.calls| - 1] == s.calls;
    forall c: nat
      ensures ConservedFor(t, c)
    {
      assert ConservedFor(s, c);
    }
    CallCollects(s, pc);
  }

  lemma CallCollects(s: State, pc: Pc)
    requires Collected(s) && (pc.TrackLoad? || pc.CloseStore?)
    ensures Collected(s.(calls := s.calls + [pc]))
  {
    var t := s.(calls := s.calls + [pc]);
    assert forall k :: 0 <= k < |s.calls| ==> t.calls[k] == s.calls[k];
    if t.closed && Pending(t) {
      assert Pending(s);
      var j :| 0 <= j < |s.calls| && Closing(s.calls[j]);
      assert Closing(t.calls[j]);
    }
  }

  lemma {:induction false} RunKeeps(acts: seq<Act>)
    ensures Inv(Run(acts))
    decreases |acts|
  {
    if acts != [] {
      var s, a := Run(acts[..|acts| - 1]), acts[|acts| - 1];
      RunKeeps(acts[..|acts| - 1]);
      match a {
        case CallTrack => CallKeeps(s, TrackLoad);
        case CallClose => CallKeeps(s, CloseStore);
        case Go(k) =>
          if k < |s.calls| {
            StepKeeps(s, k);
          }
      }
    }
  }

  // ------------------------------------------------------------------ theorems

  /** In every interleaving a closer fires at most once, only after a close, and only if it was tracked. */
  lemma AtMostOnce(acts: seq<Act>, c: nat)
    ensures var s := Run(acts);
      && Times(s.fired, c) <= 1
      && (c in s.fired ==> s.closed && c < |s.calls| && IsTrack(s.calls[c]))
  {
    var s := Run(acts);
    RunKeeps(acts);
    assert ConservedFor(s, c);
    if c in s.fired {
      TimesIn(s.fired, c);
    }
  }

  /** When every call has returned and one of them was a close, each tracked closer has fired exactly once. */
  lemma ExactlyOnce(acts: seq<Act>, c: nat)
    requires var s := Run(acts);
      && (forall j :: 0 <= j < |s.calls| ==> Returned(s.calls[j]))
      && (exists j :: 0 <= j < |s.calls| && s.calls[j].CloseDone?)
      && c < |s.calls| && s.calls[c].TrackDone?
    ensures Times(Run(acts).fired, c) == 1
  {
    var s := Run(acts);
    RunKeeps(acts);
    assert forall j :: 0 <= j < |s.calls| ==> !Closing(s.calls[j]) by {
      assert forall j :: 0 <= j < |s.calls| ==> Returned(s.calls[j]);
    }
    assert s.closers == [];
    NothingHeld(s.calls, c);
    assert ConservedFor(s, c);
  }

  /** No deadlock: while a call has not returned, some call can move. */
  lemma SomeCallMoves(acts: seq<Act>, j: nat)
    requires j < |Run(acts).calls| && !Returned(Run(acts).calls[j])
    ensures exists k: nat :: k < |Run(acts).calls| && Step(Run(acts), k).calls != Run(acts).calls
  {
    var s := Run(acts);
    RunKeeps(acts);
    var k := if s.holder.Some? then s.holder.value else j;
    assert Step(s, k).calls[k] != s.calls[k];
  }

  // ------------------------------------------------------------- one call alone

  /** The flag as one thread sees it when nobody interferes. */
  class ShutdownFlag {
    var closed: bool
    var closers: seq<nat>
    var fired: seq<nat>

    constructor ()
      ensures !closed && closers == [] && fired == []
    {
      closed, closers, fired := false, [], [];
    }

    method Track(closer: nat)
      modifies this
      ensures closed == old(closed)
      ensures closers == if closed then old(closers) else old(closers) + [closer]
      ensures fired == if closed then old(fired) + [closer] else old(fired)
    {
      if closed {
        fired := fired + [closer];
        return;
      }
      closers := closers + [closer];
    }

    method Close()
      modifies this
      ensures closed && closers == []
      ensures fired == old(fired) + old(closers)
    {
      closed := true;
      var taken := closers;
      closers := [];
      for i := 0 to |taken|
        invariant closed && closers == [] && fired == old(fired) + taken[..i]
      {
        fired := fired + [taken[i]];
      }
    }
  }
}
