/**
  In which order promise reads settle: the jobs run first in, first out, but a
  worker's error takes a second job, which waits at the back of the queue.
*/
module JobOrder {
  import opened Common
  import opened Jobs
  import P = Promises

  /** The replies about the reads `ids`, in order. */
  function RepliesTo(s: seq<P.Reply>, ids: set<nat>): seq<P.Reply> {
    if s == [] then []
    else if s[0].op in ids then [s[0]] + RepliesTo(s[1..], ids)
    else RepliesTo(s[1..], ids)
  }

  lemma RepliesToNone(ids: set<nat>)
    ensures RepliesTo([], ids) == []
  {
  }

  lemma RepliesToFirst(s: seq<P.Reply>, ids: set<nat>)
    requires s != []
    ensures RepliesTo(s, ids) == if s[0].op in ids then [s[0]] + RepliesTo(s[1..], ids) else RepliesTo(s[1..], ids)
  {
  }

  lemma {:induction false} RepliesToConcat(a: seq<P.Reply>, b: seq<P.Reply>, ids: set<nat>)
    ensures RepliesTo(a + b, ids) == RepliesTo(a, ids) + RepliesTo(b, ids)
  {
    hide RepliesTo;
    if a == [] {
      assert a + b == b;
      RepliesToNone(ids);
    } else {
      assert (a + b)[1..] == a[1..] + b;
      RepliesToFirst(a, ids);
      RepliesToFirst(a + b, ids);
      RepliesToConcat(a[1..], b, ids);
    }
  }

  lemma {:induction false} RepliesToOthers(s: seq<P.Reply>, ids: set<nat>)
    requires forall i :: 0 <= i < |s| ==> s[i].op !in ids
    ensures RepliesTo(s, ids) == []
  {
    if s != [] {
      RepliesToOthers(s[1..], ids);
    }
  }

  lemma {:induction false} RepliesToAll(s: seq<P.Reply>, ids: set<nat>)
    requires forall i :: 0 <= i < |s| ==> s[i].op in ids
    ensures RepliesTo(s, ids) == s
  {
    if s != [] {
      RepliesToAll(s[1..], ids);
    }
  }

  function Prompt(s: seq<P.Reply>): seq<P.Reply> {
    if s == [] then []
    else if s[0].late then Prompt(s[1..])
    else [s[0]] + Prompt(s[1..])
  }

  function Late(s: seq<P.Reply>): seq<P.Reply> {
    if s == [] then []
    else if s[0].late then [s[0]] + Late(s[1..])
    else Late(s[1..])
  }

  /** All that settle at once, then all worker errors, each in submission order. */
  function LateLast(s: seq<P.Reply>): seq<P.Reply> {
    Prompt(s) + Late(s)
  }

  lemma Cons(r: P.Reply, s: seq<P.Reply>, ids: set<nat>)
    ensures RepliesTo([r] + s, ids) == if r.op in ids then [r] + RepliesTo(s, ids) else RepliesTo(s, ids)
    ensures Prompt([r] + s) == if r.late then Prompt(s) else [r] + Prompt(s)
    ensures Late([r] + s) == if r.late then [r] + Late(s) else Late(s)
  {
    assert ([r] + s)[1..] == s;
  }

  // ------------------------------------------------------- queues and replies

  /** The settlements that the jobs of a queue bring about themselves. */
  lemma {:induction false} DirectSettlements(js: seq<PromiseJob>, ids: set<nat>)
    requires forall j :: j in js && j.OwedRead? ==> j.reply.op in ids
    requires forall j :: j in js && j.Rejection? ==> j.reply.op !in ids
    ensures RepliesTo(Chosen(js, SettledOf), ids) == Prompt(Chosen(js, ReplyOf))
  {
    if js != [] {
      var j := js[0];
      assert j in js;
      DirectSettlements(js[1..], ids);
      ChosenFirst(js, SettledOf);
      ChosenFirst(js, ReplyOf);
      if j.OwedRead? || j.Rejection? {
        Cons(j.reply, Chosen(js[1..], SettledOf), ids);
        Cons(j.reply, Chosen(js[1..], ReplyOf), ids);
      }
    }
  }

  /** Of jobs that reply to nobody in `ids`, only rejections settle one. */
  lemma {:induction false} OnlyRejections(js: seq<PromiseJob>, ids: set<nat>)
    requires forall j :: j in js && j.OwedRead? ==> j.reply.op !in ids
    ensures RepliesTo(Chosen(js, SettledOf), ids) == RepliesTo(Chosen(js, RejectionOf), ids)
    ensures RepliesTo(Chosen(js, DeferredOf), ids) == []
  {
    if js != [] {
      var j := js[0];
      assert j in js;
      OnlyRejections(js[1..], ids);
      ChosenFirst(js, SettledOf);
      ChosenFirst(js, RejectionOf);
      ChosenFirst(js, DeferredOf);
      if j.OwedRead? || j.Rejection? {
        Cons(j.reply, Chosen(js[1..], SettledOf), ids);
        Cons(j.reply, Chosen(js[1..], RejectionOf), ids);
        Cons(j.reply, Chosen(js[1..], DeferredOf), ids);
      }
    }
  }

  lemma {:induction false} DeferredReplies(js: seq<PromiseJob>, ids: set<nat>)
    requires forall j :: j in js && j.OwedRead? ==> j.reply.op in ids
    ensures RepliesTo(Chosen(js, DeferredOf), ids) == Late(Chosen(js, ReplyOf))
  {
    if js != [] {
      var j := js[0];
      assert j in js;
      DeferredReplies(js[1..], ids);
      ChosenFirst(js, DeferredOf);
      ChosenFirst(js, ReplyOf);
      if j.OwedRead? {
        Cons(j.reply, Chosen(js[1..], DeferredOf), ids);
        Cons(j.reply, Chosen(js[1..], ReplyOf), ids);
      }
    }
  }

  // ---------------------------------------------------------------- stretches

  function Ops(s: seq<P.Reply>): set<nat> {
    set i | 0 <= i < |s| :: s[i].op
  }

  /** No read is replied to twice, and replies are queued in submission order. */
  ghost predicate InLine(q: Queue) {
    Increasing(P.LogIds(Chosen(Everything(q), ReplyOf)))
  }

  /** The replies whose jobs wait in the queue, of however many polls. */
  function Stretch(q: Queue): seq<P.Reply> {
    Chosen(q.jobs, ReplyOf)
  }

  /** What has settled between two states of the queue. */
  function SettledBetween(q: Queue, q': Queue): seq<P.Reply>
    requires |q.ran| <= |q'.ran|
  {
    Chosen(q'.ran[|q.ran|..], SettledOf)
  }

  lemma LineApart(a: seq<P.Reply>, b: seq<P.Reply>, c: seq<P.Reply>)
    requires Increasing(P.LogIds(a + b + c))
    ensures Increasing(P.LogIds(b))
    ensures forall r :: r in a ==> r.op !in Ops(b)
    ensures forall r :: r in c ==> r.op !in Ops(b)
  {
    var all := a + b + c;
    forall i, j | 0 <= i < |a| && 0 <= j < |b| ensures a[i].op < b[j].op {
      assert P.LogIds(all)[i] == a[i].op && P.LogIds(all)[|a| + j] == b[j].op;
    }
    forall i, j | 0 <= i < |b| && 0 <= j < |c| ensures b[i].op < c[j].op {
      assert P.LogIds(all)[|a| + i] == b[i].op && P.LogIds(all)[|a| + |b| + j] == c[j].op;
    }
    forall i, j | 0 <= i < j < |b| ensures b[i].op < b[j].op {
      assert P.LogIds(all)[|a| + i] == b[i].op && P.LogIds(all)[|a| + j] == b[j].op;
    }
  }

  /** Jobs that reply to a read are among the replies; rejections are of earlier ones. */
  lemma WhoReplies(js: seq<PromiseJob>)
    ensures forall j :: j in js && j.OwedRead? ==> j.reply in Chosen(js, ReplyOf)
    ensures forall j :: j in js && j.Rejection? ==> j.reply in Chosen(js, RejectionOf)
  {
    forall j | j in js && j.OwedRead? ensures j.reply in Chosen(js, ReplyOf) {
      ChosenHas(js, ReplyOf, j.reply);
    }
    forall j | j in js && j.Rejection? ensures j.reply in Chosen(js, RejectionOf) {
      ChosenHas(js, RejectionOf, j.reply);
    }
  }

  lemma DeferredWereReplies(js: seq<PromiseJob>, r: P.Reply)
    requires r in Chosen(js, DeferredOf)
    ensures r in Chosen(js, ReplyOf)
  {
    ChosenHas(js, DeferredOf, r);
    ChosenHas(js, ReplyOf, r);
  }

  /** The jobs added after `q` and the jobs run since. */
  lemma AddedAndRun(q: Queue, q': Queue)
    requires Extends(q, q')
    ensures var more, run := Everything(q')[|Everything(q)|..], q'.ran[|q.ran|..];
      && Everything(q') == Everything(q) + more && q'.ran == q.ran + run
      && run + q'.jobs == q.jobs + more
  {
    var more, run := Everything(q')[|Everything(q)|..], q'.ran[|q.ran|..];
    assert q'.ran == q.ran + run && Everything(q') == Everything(q) + more;
    assert q.ran + (run + q'.jobs) == (q.ran + run) + q'.jobs;
    assert q.ran + (q.jobs + more) == (q.ran + q.jobs) + more;
    assert run + q'.jobs == (q.ran + (run + q'.jobs))[|q.ran|..];
    assert q.jobs + more == (q.ran + (q.jobs + more))[|q.ran|..];
  }

  /** Since `q` exactly the rejections of the deferred jobs that have run were added. */
  lemma AddedRejections(q: Queue, q': Queue)
    requires Consistent(q) && Consistent(q') && Extends(q, q')
    ensures var more, run := Everything(q')[|Everything(q)|..], q'.ran[|q.ran|..];
      Chosen(more, RejectionOf) == Chosen(run, DeferredOf)
  {
    var more, run := Everything(q')[|Everything(q)|..], q'.ran[|q.ran|..];
    AddedAndRun(q, q');
    ChosenConcat(Everything(q), more, RejectionOf);
    ChosenConcat(q.ran, run, DeferredOf);
    var before := Chosen(q.ran, DeferredOf);
    assert before + Chosen(more, RejectionOf) == before + Chosen(run, DeferredOf);
    assert Chosen(more, RejectionOf) == (before + Chosen(more, RejectionOf))[|before|..];
    assert Chosen(run, DeferredOf) == (before + Chosen(run, DeferredOf))[|before|..];
  }

  /** Jobs before, in and after a stretch are about different reads. */
  lemma StretchApart(q: Queue, q': Queue)
    requires Consistent(q) && Extends(q, q') && InLine(q')
    ensures var more, ids := Everything(q')[|Everything(q)|..], Ops(Stretch(q));
      && Increasing(P.LogIds(Stretch(q)))
      && (forall j :: j in q.jobs && j.OwedRead? ==> j.reply.op in ids)
      && (forall j :: j in q.jobs && j.Rejection? ==> j.reply.op !in ids)
      && (forall j :: j in more && j.OwedRead? ==> j.reply.op !in ids)
  {
    var more := Everything(q')[|Everything(q)|..];
    var before, after := Chosen(q.ran, ReplyOf), Chosen(more, ReplyOf);
    AddedAndRun(q, q');
    ChosenConcat(Everything(q), more, ReplyOf);
    ChosenConcat(q.ran, q.jobs, ReplyOf);
    LineApart(before, Stretch(q), after);
    WhoReplies(q.jobs);
    WhoReplies(more);
    forall j | j in q.jobs && j.Rejection? ensures j.reply in before {
      ChosenConcat(q.ran, q.jobs, RejectionOf);
      DeferredWereReplies(q.ran, j.reply);
    }
  }

  /** Everything that the jobs since `q` settle of the stretch, in order. */
  lemma StretchSettlements(q: Queue, q': Queue)
    requires Consistent(q) && Consistent(q') && Extends(q, q') && InLine(q')
    ensures var run, ids := q'.ran[|q.ran|..], Ops(Stretch(q));
      && RepliesTo(Chosen(run + q'.jobs, SettledOf), ids)
         == Prompt(Stretch(q)) + RepliesTo(Chosen(run, DeferredOf), ids)
      && RepliesTo(Chosen(run + q'.jobs, DeferredOf), ids) == Late(Stretch(q))
  {
    hide Chosen, RepliesTo, Prompt, Late, Increasing, Ops;
    var more, run, ids := Everything(q')[|Everything(q)|..], q'.ran[|q.ran|..], Ops(Stretch(q));
    AddedAndRun(q, q');
    AddedRejections(q, q');
    StretchApart(q, q');
    ChosenConcat(q.jobs, more, SettledOf);
    RepliesToConcat(Chosen(q.jobs, SettledOf), Chosen(more, SettledOf), ids);
    DirectSettlements(q.jobs, ids);
    OnlyRejections(more, ids);
    ChosenConcat(q.jobs, more, DeferredOf);
    RepliesToConcat(Chosen(q.jobs, DeferredOf), Chosen(more, DeferredOf), ids);
    DeferredReplies(q.jobs, ids);
    assert Late(Stretch(q)) + [] == Late(Stretch(q));
  }

  /**
    Of the replies that wait in the queue, those that settle at once settle
    first, then the workers' errors, each in submission order; at every later
    moment what has settled of them is a prefix of this order.
  */
  lemma StretchOrder(q: Queue, q': Queue)
    requires Consistent(q) && Consistent(q') && Extends(q, q') && InLine(q')
    ensures RepliesTo(SettledBetween(q, q'), Ops(Stretch(q))) <= LateLast(Stretch(q))
  {
    hide Chosen, RepliesTo, Prompt, Late, Increasing, Ops, Consistent;
    var run, ids := q'.ran[|q.ran|..], Ops(Stretch(q));
    StretchSettlements(q, q');
    ChosenConcat(run, q'.jobs, SettledOf);
    RepliesToConcat(Chosen(run, SettledOf), Chosen(q'.jobs, SettledOf), ids);
    ChosenConcat(run, q'.jobs, DeferredOf);
    RepliesToConcat(Chosen(run, DeferredOf), Chosen(q'.jobs, DeferredOf), ids);
    PrefixOfPrefix(RepliesTo(Chosen(run, SettledOf), ids), RepliesTo(Chosen(q'.jobs, SettledOf), ids),
                   Prompt(Stretch(q)), RepliesTo(Chosen(run, DeferredOf), ids), RepliesTo(Chosen(q'.jobs, DeferredOf), ids));
  }

  // ------------------------------------------------------- the exact condition

  /** A worker's error is followed, in the stretch, by a reply that is none. */
  ghost predicate ErrorOvertaken(s: seq<P.Reply>) {
    exists i, j :: 0 <= i < j < |s| && s[i].late && !s[j].late
  }

  lemma {:induction false} InOrderStays(s: seq<P.Reply>)
    requires !ErrorOvertaken(s)
    ensures LateLast(s) == s
    ensures s != [] && s[0].late ==> Prompt(s) == [] && Late(s) == s
  {
    if s != [] {
      forall i, j | 0 <= i < j < |s[1..]| ensures !(s[1..][i].late && !s[1..][j].late) {
        assert s[1..][i] == s[i + 1] && s[1..][j] == s[j + 1];
      }
      InOrderStays(s[1..]);
      if s[0].late && |s| > 1 {
        assert s[1].late;
      }
    }
  }

  lemma {:induction false} WhereToFind(s: seq<P.Reply>, r: P.Reply)
    ensures r in Prompt(s) <==> r in s && !r.late
    ensures r in Late(s) <==> r in s && r.late
  {
    if s != [] {
      WhereToFind(s[1..], r);
    }
  }

  /** Exactly when the replies of a stretch settle in submission order. */
  lemma InOrderExactly(s: seq<P.Reply>)
    requires Increasing(P.LogIds(s))
    ensures Increasing(P.LogIds(LateLast(s))) <==> !ErrorOvertaken(s)
    ensures !ErrorOvertaken(s) ==> LateLast(s) == s
  {
    if i, j :| 0 <= i < j < |s| && s[i].late && !s[j].late {
      WhereToFind(s, s[i]);
      WhereToFind(s, s[j]);
      var m :| 0 <= m < |Prompt(s)| && Prompt(s)[m] == s[j];
      var n :| 0 <= n < |Late(s)| && Late(s)[n] == s[i];
      var ids := P.LogIds(LateLast(s));
      assert ids[m] == s[j].op && ids[|Prompt(s)| + n] == s[i].op;
      assert P.LogIds(s)[i] < P.LogIds(s)[j];
    } else {
      InOrderStays(s);
    }
  }

  lemma PrefixOfPrefix<T>(done: seq<T>, rest: seq<T>, a: seq<T>, b: seq<T>, c: seq<T>)
    requires done + rest == a + b
    ensures done <= a + (b + c)
  {
    assert a + (b + c) == (done + rest) + c;
  }

  lemma NotBoth(s: seq<P.Reply>, i: nat, j: nat)
    requires i < |Prompt(s)| && j < |Late(s)|
    ensures Prompt(s)[i] != Late(s)[j]
  {
    WhereToFind(s, Prompt(s)[i]);
    WhereToFind(s, Late(s)[j]);
  }

  lemma DistinctOps(s: seq<P.Reply>, i: nat, j: nat)
    requires Increasing(P.LogIds(s)) && i < |LateLast(s)| && j < |LateLast(s)| && LateLast(s)[i] == LateLast(s)[j]
    ensures i == j
  {
    PromptLine(s);
    var p, l := Prompt(s), Late(s);
    if i < |p| && j < |p| {
      assert P.LogIds(p)[i] == P.LogIds(p)[j];
    } else if |p| <= i && |p| <= j {
      assert P.LogIds(l)[i - |p|] == P.LogIds(l)[j - |p|];
    } else if i < |p| {
      NotBoth(s, i, j - |p|);
    } else {
      NotBoth(s, j, i - |p|);
    }
  }

  lemma {:induction false} PromptLine(s: seq<P.Reply>)
    requires Increasing(P.LogIds(s))
    ensures Increasing(P.LogIds(Prompt(s))) && Increasing(P.LogIds(Late(s)))
  {
    if s != [] {
      assert P.LogIds(s)[1..] == P.LogIds(s[1..]);
      IncreasingTail(P.LogIds(s));
      PromptLine(s[1..]);
      Above(s[1..], s[0]);
      if s[0].late {
        assert P.LogIds(Late(s)) == [s[0].op] + P.LogIds(Late(s[1..]));
        IncreasingCons(s[0].op, P.LogIds(Late(s[1..])));
      } else {
        assert P.LogIds(Prompt(s)) == [s[0].op] + P.LogIds(Prompt(s[1..]));
        IncreasingCons(s[0].op, P.LogIds(Prompt(s[1..])));
      }
    }
  }

  lemma Above(s: seq<P.Reply>, r: P.Reply)
    requires AllAbove(P.LogIds(s), r.op)
    ensures AllAbove(P.LogIds(Prompt(s)), r.op) && AllAbove(P.LogIds(Late(s)), r.op)
  {
    forall i | 0 <= i < |Prompt(s)| ensures r.op < Prompt(s)[i].op {
      WhereToFind(s, Prompt(s)[i]);
      var k :| 0 <= k < |s| && s[k] == Prompt(s)[i];
      assert P.LogIds(s)[k] in P.LogIds(s);
    }
    forall i | 0 <= i < |Late(s)| ensures r.op < Late(s)[i].op {
      WhereToFind(s, Late(s)[i]);
      var k :| 0 <= k < |s| && s[k] == Late(s)[i];
      assert P.LogIds(s)[k] in P.LogIds(s);
    }
  }

  /** Once all of them have settled, that is the whole order. */
  lemma StretchComplete(q: Queue, q': Queue)
    requires Consistent(q) && Consistent(q') && Extends(q, q') && InLine(q')
    requires forall r :: r in Stretch(q) ==> r in SettledBetween(q, q')
    ensures RepliesTo(SettledBetween(q, q'), Ops(Stretch(q))) == LateLast(Stretch(q))
  {
    hide Chosen, Prompt, Late, Consistent;
    var s := Stretch(q);
    var done, all := RepliesTo(SettledBetween(q, q'), Ops(s)), LateLast(s);
    StretchOrder(q, q');
    StretchApart(q, q');
    if |done| < |all| {
      var r := all[|done|];
      WhereToFind(s, r);
      assert r in s;
      RepliesToHas(SettledBetween(q, q'), Ops(s), r);
      var k :| 0 <= k < |done| && done[k] == r;
      DistinctOps(s, k, |done|);
    }
  }

  lemma {:induction false} RepliesToHas(s: seq<P.Reply>, ids: set<nat>, r: P.Reply)
    requires r in s && r.op in ids
    ensures r in RepliesTo(s, ids)
  {
    if s[0] != r {
      RepliesToHas(s[1..], ids, r);
    }
  }
}
