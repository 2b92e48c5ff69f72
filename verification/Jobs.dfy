/**
  The promise jobs of one context: a queue that the engine runs first in, first
  out. Promises settle in jobs and nowhere else, so this is the order that
  scripts get to see.
*/
module Jobs {
  import opened Common
  import P = Promises
  import S = Streams

  /** What a call that owes nothing tells its promise. */
  datatype Answer =
    | ReadRefused(error: FileApiError)
    | StreamAnswered(outcome: S.Outcome)
    | CancelAnswered(accepted: bool)

  /** One queued job. Only the job of a late reply settles nothing: it queues a `Rejection`. */
  datatype PromiseJob =
    | OwedRead(reply: P.Reply)
    | Rejection(reply: P.Reply)
    | OwedChunk(settlement: S.Settlement)
    | CallAnswer(call: nat, answer: Answer)

  /** `ran` are the jobs that have run, in order; `calls` counts the promises of calls that owed nothing. */
  datatype Queue = Queue(ran: seq<PromiseJob>, jobs: seq<PromiseJob>, calls: nat)

  const EMPTY_QUEUE := Queue([], [], 0)

  predicate Defers(j: PromiseJob) {
    j.OwedRead? && j.reply.late
  }

  /** The engine runs the oldest job. */
  function RunHead(q: Queue): Queue
    requires q.jobs != []
  {
    var j := q.jobs[0];
    Queue(q.ran + [j], q.jobs[1..] + (if Defers(j) then [Rejection(j.reply)] else []), q.calls)
  }

  function Pushed(q: Queue, more: seq<PromiseJob>): Queue {
    q.(jobs := q.jobs + more)
  }

  /** A call settles a promise of its own, in a job. */
  function Called(q: Queue, answer: Answer): Queue {
    Queue(q.ran, q.jobs + [CallAnswer(q.calls, answer)], q.calls + 1)
  }

  /** The entries a log has gained. */
  function Gained<T>(before: seq<T>, after: seq<T>): seq<T> {
    if |before| <= |after| then after[|before|..] else []
  }

  function ReadJobs(replies: seq<P.Reply>): (js: seq<PromiseJob>)
    ensures |js| == |replies| && forall i :: 0 <= i < |js| ==> js[i] == OwedRead(replies[i])
  {
    if replies == [] then [] else [OwedRead(replies[0])] + ReadJobs(replies[1..])
  }

  function ChunkJobs(settlements: seq<S.Settlement>): (js: seq<PromiseJob>)
    ensures |js| == |settlements| && forall i :: 0 <= i < |js| ==> js[i] == OwedChunk(settlements[i])
  {
    if settlements == [] then [] else [OwedChunk(settlements[0])] + ChunkJobs(settlements[1..])
  }

  /** Which promise a job is about. */
  datatype Ticket = Whole(op: nat) | Chunk(op: nat, number: nat) | Call(call: nat)

  function Who(j: PromiseJob): Ticket {
    match j
    case OwedRead(reply) => Whole(reply.op)
    case Rejection(reply) => Whole(reply.op)
    case OwedChunk(settlement) => Chunk(settlement.op, settlement.number)
    case CallAnswer(call, _) => Call(call)
  }

  /** The promises that jobs are about, and those that they settle. */

  ghost predicate About(js: seq<PromiseJob>, t: Ticket) {
    exists i :: 0 <= i < |js| && Who(js[i]) == t
  }

  ghost predicate Settles(js: seq<PromiseJob>, t: Ticket) {
    exists i :: 0 <= i < |js| && Who(js[i]) == t && !Defers(js[i])
  }

  // ---------------------------------------------------------------- selections

  function Chosen<T, U>(s: seq<T>, f: T -> Option<U>): seq<U> {
    if s == [] then []
    else if f(s[0]).Some? then [f(s[0]).value] + Chosen(s[1..], f)
    else Chosen(s[1..], f)
  }

  lemma ChosenNone<T, U>(f: T -> Option<U>)
    ensures Chosen([], f) == []
  {
  }

  lemma ChosenFirst<T, U>(s: seq<T>, f: T -> Option<U>)
    requires s != []
    ensures Chosen(s, f) == if f(s[0]).Some? then [f(s[0]).value] + Chosen(s[1..], f) else Chosen(s[1..], f)
  {
  }

  lemma {:induction false} ChosenConcat<T, U>(a: seq<T>, b: seq<T>, f: T -> Option<U>)
    ensures Chosen(a + b, f) == Chosen(a, f) + Chosen(b, f)
  {
    hide Chosen;
    if a == [] {
      assert a + b == b;
      ChosenNone(f);
    } else {
      assert (a + b)[1..] == a[1..] + b;
      ChosenFirst(a, f);
      ChosenFirst(a + b, f);
      ChosenConcat(a[1..], b, f);
    }
  }

  lemma {:induction false} ChosenHas<T, U>(s: seq<T>, f: T -> Option<U>, u: U)
    ensures u in Chosen(s, f) <==> exists i :: 0 <= i < |s| && f(s[i]) == Some(u)
  {
    if s != [] {
      ChosenHas(s[1..], f, u);
      if i :| 0 <= i < |s| && f(s[i]) == Some(u) {
        if i > 0 {
          assert s[1..][i - 1] == s[i];
        }
      }
      if i :| 0 <= i < |s[1..]| && f(s[1..][i]) == Some(u) {
        assert s[i + 1] == s[1..][i];
      }
    }
  }

  function ReplyOf(j: PromiseJob): Option<P.Reply> {
    if j.OwedRead? then Some(j.reply) else None
  }

  function RejectionOf(j: PromiseJob): Option<P.Reply> {
    if j.Rejection? then Some(j.reply) else None
  }

  function DeferredOf(j: PromiseJob): Option<P.Reply> {
    if Defers(j) then Some(j.reply) else None
  }

  function SettledOf(j: PromiseJob): Option<P.Reply> {
    if (j.OwedRead? && !j.reply.late) || j.Rejection? then Some(j.reply) else None
  }

  function ChunkOf(j: PromiseJob): Option<S.Settlement> {
    if j.OwedChunk? then Some(j.settlement) else None
  }

  function CallOf(j: PromiseJob): Option<nat> {
    if j.CallAnswer? then Some(j.call) else None
  }

  function Everything(q: Queue): seq<PromiseJob> {
    q.ran + q.jobs
  }

  /** Every deferred rejection has been queued exactly once, in the order of the jobs that did. */
  ghost predicate Consistent(q: Queue) {
    Chosen(Everything(q), RejectionOf) == Chosen(q.ran, DeferredOf)
  }

  /** What a queue turns into: jobs run from the front and are added at the back. */
  ghost predicate Extends(q: Queue, q': Queue) {
    q.ran <= q'.ran && Everything(q) <= Everything(q') && q.calls <= q'.calls
  }

  lemma RunHeadKeeps(q: Queue)
    requires q.jobs != [] && Consistent(q)
    ensures Consistent(RunHead(q)) && Extends(q, RunHead(q))
  {
    var j := q.jobs[0];
    var second := if Defers(j) then [Rejection(j.reply)] else [];
    assert Everything(RunHead(q)) == Everything(q) + second;
    ChosenConcat(Everything(q), second, RejectionOf);
    ChosenConcat(q.ran, [j], DeferredOf);
  }
}
