/** Whole runs of one serve loop: heartbeat and flood bounds (server/src/actor/session.rs). */
module SessionTrace {
  import opened Utf8
  import opened Frames
  import opened Clock
  import opened TokenBucket
  import opened SessionLoop

  /** One turn of the loop: when, and which arm the select chose. */
  datatype Beat = Beat(at: real, arm: Arm)

  /** The loop's variables after the turns of `trace`, the latest last. The loop began at `start`. */
  function VarsAfter(cfg: Config, me: Str, start: real, trace: seq<Beat>): Vars {
    if trace == [] then Start(cfg, start)
    else
      var last := trace[|trace| - 1];
      React(cfg, me, VarsAfter(cfg, me, start, trace[..|trace| - 1]), last.at, last.arm).0
  }

  /** What the last turn led to. */
  function LastReaction(cfg: Config, me: Str, start: real, trace: seq<Beat>): Reaction
    requires trace != []
  {
    var last := trace[|trace| - 1];
    React(cfg, me, VarsAfter(cfg, me, start, trace[..|trace| - 1]), last.at, last.arm).1
  }

  predicate InOrder(start: real, trace: seq<Beat>, now: real) { NeverBackwards(BeatTime, start, trace, now) }

  function BeatTime(b: Beat): real { b.at }

  /** No turn so far has ended the loop. */
  predicate Alive(cfg: Config, me: Str, start: real, trace: seq<Beat>) {
    trace == [] || (!Final(LastReaction(cfg, me, start, trace)) && Alive(cfg, me, start, trace[..|trace| - 1]))
  }

  // ----- heartbeat -----

  predicate IsInbound(arm: Arm) { arm.OnRead? && arm.inbound.Frame? }

  /** When the last frame was read from the client, or the loop began. */
  function LastInbound(start: real, trace: seq<Beat>): real {
    if trace == [] then start
    else if IsInbound(trace[|trace| - 1].arm) then trace[|trace| - 1].at
    else LastInbound(start, trace[..|trace| - 1])
  }

  /** When the timer last fired, counting the tick that is consumed as the loop begins. */
  function LastTick(start: real, trace: seq<Beat>): real {
    if trace == [] then start
    else if trace[|trace| - 1].arm.OnTick? then trace[|trace| - 1].at
    else LastTick(start, trace[..|trace| - 1])
  }

  lemma {:induction false} ActivityIsLastInbound(cfg: Config, me: Str, start: real, trace: seq<Beat>)
    ensures VarsAfter(cfg, me, start, trace).lastActivity == LastInbound(start, trace)
    decreases |trace|
  {
    if trace != [] { ActivityIsLastInbound(cfg, me, start, trace[..|trace| - 1]); }
  }

  lemma {:induction false} LastsInOrder(start: real, trace: seq<Beat>, now: real)
    requires InOrder(start, trace, now)
    ensures start <= LastInbound(start, trace) <= now && start <= LastTick(start, trace) <= now
    decreases |trace|
  {
    if trace != [] { LastsInOrder(start, trace[..|trace| - 1], trace[|trace| - 1].at); }
  }

  /** A tick the loop survived came no later than the idle timeout after the last frame. */
  lemma {:induction false} SurvivedTick(cfg: Config, me: Str, start: real, trace: seq<Beat>, now: real)
    requires cfg.Valid() && InOrder(start, trace, now) && Alive(cfg, me, start, trace)
    ensures LastTick(start, trace) <= LastInbound(start, trace) + cfg.idleTimeout
    decreases |trace|
  {
    if trace != [] {
      var front, last := trace[..|trace| - 1], trace[|trace| - 1];
      SurvivedTick(cfg, me, start, front, last.at);
      LastsInOrder(start, front, last.at);
      ActivityIsLastInbound(cfg, me, start, front);
    }
  }

  /** An idle session ends in time. If the timer's last tick was at most `period` ago and no frame
      has come for longer than the idle timeout plus that period, some turn has ended the loop. */
  lemma IdleSessionEnds(cfg: Config, me: Str, start: real, trace: seq<Beat>, now: real, period: real)
    requires cfg.Valid() && InOrder(start, trace, now)
    requires now - LastTick(start, trace) <= period
    requires now > LastInbound(start, trace) + cfg.idleTimeout + period
    ensures !Alive(cfg, me, start, trace)
  {
    if Alive(cfg, me, start, trace) {
      SurvivedTick(cfg, me, start, trace, now);
    }
  }

  /** A frame has been read since the last tick; the loop's beginning counts as one. */
  predicate HeardSinceTick(trace: seq<Beat>) {
    trace == [] || IsInbound(trace[|trace| - 1].arm)
    || (!trace[|trace| - 1].arm.OnTick? && HeardSinceTick(trace[..|trace| - 1]))
  }

  /** Every tick comes within the idle timeout of the one before, with a frame in between. */
  predicate Fed(cfg: Config, start: real, trace: seq<Beat>) {
    trace == []
    || (var front, last := trace[..|trace| - 1], trace[|trace| - 1];
        && Fed(cfg, start, front)
        && (last.arm.OnTick? ==> HeardSinceTick(front) && last.at - LastTick(start, front) <= cfg.idleTimeout))
  }

  predicate IdleDisconnect(cfg: Config, me: Str, start: real, trace: seq<Beat>)
    requires trace != []
  {
    trace[|trace| - 1].arm.OnTick? && Final(LastReaction(cfg, me, start, trace))
  }

  lemma {:induction false} HeardIsRecent(start: real, trace: seq<Beat>, now: real)
    requires InOrder(start, trace, now) && HeardSinceTick(trace)
    ensures LastTick(start, trace) <= LastInbound(start, trace)
    decreases |trace|
  {
    if trace != [] {
      LastsInOrder(start, trace[..|trace| - 1], trace[|trace| - 1].at);
      if !IsInbound(trace[|trace| - 1].arm) {
        HeardIsRecent(start, trace[..|trace| - 1], trace[|trace| - 1].at);
      }
    }
  }

  /** A session that keeps talking is never cut off for idleness: if every tick comes within the
      idle timeout of the one before it, with a frame in between, no tick disconnects. */
  lemma {:induction false} TalkerIsNeverIdle(cfg: Config, me: Str, start: real, trace: seq<Beat>, now: real, n: nat)
    requires InOrder(start, trace, now) && Fed(cfg, start, trace)
    requires 0 < n <= |trace|
    ensures !IdleDisconnect(cfg, me, start, trace[..n])
    decreases |trace|
  {
    var front, last := trace[..|trace| - 1], trace[|trace| - 1];
    if n < |trace| {
      assert front[..n] == trace[..n];
      TalkerIsNeverIdle(cfg, me, start, front, last.at, n);
    } else {
      assert trace[..n] == trace;
      if last.arm.OnTick? {
        HeardIsRecent(start, front, last.at);
        LastsInOrder(start, front, last.at);
        ActivityIsLastInbound(cfg, me, start, front);
      }
    }
  }

  // ----- flood -----

  /** A Send whose body is valid: the turns that reach the rate limiter. */
  predicate IsSend(arm: Arm) { IsInbound(arm) && arm.inbound.frame.Send? && ValidBody(arm.inbound.frame.body) }

  /** The calls the loop made to its limiter. */
  function Calls(trace: seq<Beat>): seq<Call> {
    if trace == [] then []
    else
      var calls, last := Calls(trace[..|trace| - 1]), trace[|trace| - 1];
      if IsSend(last.arm) then calls + [Call(last.at, ONE_MESSAGE)] else calls
  }

  /** How many messages the loop broadcast in the closed interval from `a` to `b`. */
  function Published(cfg: Config, me: Str, start: real, trace: seq<Beat>, a: real, b: real): nat {
    if trace == [] then 0
    else
      var n := Published(cfg, me, start, trace[..|trace| - 1], a, b);
      if LastReaction(cfg, me, start, trace).Broadcast? && a <= trace[|trace| - 1].at <= b then n + 1 else n
  }

  lemma {:induction false} BucketIsHistory(cfg: Config, me: Str, start: real, trace: seq<Beat>, now: real)
    requires InOrder(start, trace, now)
    ensures VarsAfter(cfg, me, start, trace).bucket == After(cfg.Limits(), start, Calls(trace))
    ensures Ordered(start, Calls(trace), now)
    decreases |trace|
  {
    hide Consume, React, IsSend, NeverBackwards;
    if trace == [] {
      NoCallsYet(start, now);
    } else {
      var front, last := trace[..|trace| - 1], trace[|trace| - 1];
      EarlierInOrder(start, trace, now);
      BucketIsHistory(cfg, me, start, front, last.at);
      TurnBucket(cfg, me, VarsAfter(cfg, me, start, front), last.at, last.arm);
      if IsSend(last.arm) {
        CallAdded(cfg.Limits(), start, Calls(front), Call(last.at, ONE_MESSAGE), now);
      } else {
        AdmittedOrderedLater(cfg.Limits(), start, Calls(front), last.at, now);
      }
    }
  }

  lemma NoCallsYet(start: real, now: real)
    requires InOrder(start, [], now)
    ensures Ordered(start, [], now)
  {
  }

  lemma EarlierInOrder(start: real, trace: seq<Beat>, now: real)
    requires InOrder(start, trace, now) && trace != []
    ensures trace[|trace| - 1].at <= now && InOrder(start, trace[..|trace| - 1], trace[|trace| - 1].at)
  {
  }

  lemma TurnBucket(cfg: Config, me: Str, v: Vars, now: real, arm: Arm)
    ensures React(cfg, me, v, now, arm).0.bucket
         == if IsSend(arm) then Consume(cfg.Limits(), v.bucket, Call(now, ONE_MESSAGE)) else v.bucket
  {
    hide Consume, Admits, ValidateBody;
  }

  lemma CallAdded(l: Limits, start: real, calls: seq<Call>, c: Call, now: real)
    requires Ordered(start, calls, c.at) && c.at <= now
    ensures Ordered(start, calls + [c], now) && After(l, start, calls + [c]) == Consume(l, After(l, start, calls), c)
  {
    hide Consume;
    assert (calls + [c])[..|calls|] == calls;
  }

  lemma {:induction false} PublishedIsSpent(cfg: Config, me: Str, start: real, trace: seq<Beat>, now: real, a: real,
                                            b: real)
    requires InOrder(start, trace, now)
    ensures Published(cfg, me, start, trace, a, b) as real == SpentWithin(cfg.Limits(), start, Calls(trace), a, b)
    decreases |trace|
  {
    hide Consume, Admits;
    if trace != [] {
      var front, last := trace[..|trace| - 1], trace[|trace| - 1];
      PublishedIsSpent(cfg, me, start, front, last.at, a, b);
      BucketIsHistory(cfg, me, start, front, last.at);
      if IsSend(last.arm) {
        assert Calls(trace)[..|Calls(front)|] == Calls(front);
      }
    }
  }

  /** Whatever the client sends, in any window of time the session broadcasts at most burst plus
      refill rate times its length messages. */
  lemma FloodBound(cfg: Config, me: Str, start: real, trace: seq<Beat>, now: real, a: real, b: real)
    requires cfg.Valid() && InOrder(start, trace, now) && a <= b
    ensures Published(cfg, me, start, trace, a, b) as real <= cfg.burst + (b - a) * cfg.refillPerSec
  {
    hide Published, SpentWithin, Calls, Ordered, InOrder, VarsAfter, After;
    BucketIsHistory(cfg, me, start, trace, now);
    PublishedIsSpent(cfg, me, start, trace, now, a, b);
    WindowBound(cfg.Limits(), start, Calls(trace), now, a, b);
  }

  /** Two loops whose buckets agree answer alike, apart from the timer, and their buckets still
      agree. */
  lemma SameBucketSameTurn(cfg: Config, me: Str, u: Vars, v: Vars, now: real, arm: Arm)
    requires u.bucket == v.bucket
    ensures React(cfg, me, u, now, arm).0.bucket == React(cfg, me, v, now, arm).0.bucket
    ensures !arm.OnTick? ==> React(cfg, me, u, now, arm).1 == React(cfg, me, v, now, arm).1
    ensures React(cfg, me, u, now, arm).1.Broadcast? <==> React(cfg, me, v, now, arm).1.Broadcast?
  {
    hide Consume, Admits, ValidateBody;
  }

  /** At the last turn of both traces the loops answer alike; only a tick may tell them apart. */
  predicate AnswersAlike(cfg: Config, me: Str, start: real, one: seq<Beat>, two: seq<Beat>)
    requires one != [] && two != []
  {
    var r, q := LastReaction(cfg, me, start, one), LastReaction(cfg, me, start, two);
    (r.Broadcast? <==> q.Broadcast?) && (!one[|one| - 1].arm.OnTick? ==> r == q)
  }

  lemma TurnAdded(cfg: Config, me: Str, start: real, trace: seq<Beat>, b: Beat)
    ensures var v := VarsAfter(cfg, me, start, trace);
            && VarsAfter(cfg, me, start, trace + [b]) == React(cfg, me, v, b.at, b.arm).0
            && LastReaction(cfg, me, start, trace + [b]) == React(cfg, me, v, b.at, b.arm).1
  {
    hide React;
    assert (trace + [b])[..|trace|] == trace;
  }

  lemma {:induction false} SameBucketAhead(cfg: Config, me: Str, start: real, one: seq<Beat>, two: seq<Beat>,
                                           later: seq<Beat>)
    requires VarsAfter(cfg, me, start, one).bucket == VarsAfter(cfg, me, start, two).bucket
    ensures VarsAfter(cfg, me, start, one + later).bucket == VarsAfter(cfg, me, start, two + later).bucket
    decreases |later|
  {
    hide React, VarsAfter;
    if later == [] {
      assert one + later == one && two + later == two;
    } else {
      var front, last := later[..|later| - 1], later[|later| - 1];
      SameBucketAhead(cfg, me, start, one, two, front);
      assert one + later == one + front + [last] && two + later == two + front + [last];
      TurnAdded(cfg, me, start, one + front, last);
      TurnAdded(cfg, me, start, two + front, last);
      var u, v := VarsAfter(cfg, me, start, one + front), VarsAfter(cfg, me, start, two + front);
      SameBucketSameTurn(cfg, me, u, v, last.at, last.arm);
    }
  }

  lemma SameBucketSameAnswer(cfg: Config, me: Str, start: real, one: seq<Beat>, two: seq<Beat>, later: seq<Beat>)
    requires VarsAfter(cfg, me, start, one).bucket == VarsAfter(cfg, me, start, two).bucket && later != []
    ensures AnswersAlike(cfg, me, start, one + later, two + later)
  {
    hide React, VarsAfter, LastReaction;
    var front, last := later[..|later| - 1], later[|later| - 1];
    SameBucketAhead(cfg, me, start, one, two, front);
    assert one + later == one + front + [last] && two + later == two + front + [last];
    TurnAdded(cfg, me, start, one + front, last);
    TurnAdded(cfg, me, start, two + front, last);
    var u, v := VarsAfter(cfg, me, start, one + front), VarsAfter(cfg, me, start, two + front);
    SameBucketSameTurn(cfg, me, u, v, last.at, last.arm);
  }

  lemma BadSend(cfg: Config, me: Str, start: real, trace: seq<Beat>, at: real, body: Str)
    requires !ValidBody(body)
    ensures var after := trace + [Beat(at, OnRead(Frame(Send(body))))];
            && LastReaction(cfg, me, start, after) == Write(Error(Describe(ValidateBody(body).value)), false)
            && VarsAfter(cfg, me, start, after).bucket == VarsAfter(cfg, me, start, trace).bucket
  {
    TurnAdded(cfg, me, start, trace, Beat(at, OnRead(Frame(Send(body)))));
  }

  /** A Send with an invalid body is answered with an Error and leaves no trace. Whatever comes
      `later`, the limiter ends in the same state, every turn but a tick is answered exactly as if
      that Send had never come, and the very same turns broadcast. */
  lemma InvalidBodyChangesNothing(cfg: Config, me: Str, start: real, trace: seq<Beat>, at: real, body: Str,
                                  later: seq<Beat>)
    requires !ValidBody(body)
    ensures var after := trace + [Beat(at, OnRead(Frame(Send(body))))];
            && LastReaction(cfg, me, start, after) == Write(Error(Describe(ValidateBody(body).value)), false)
            && VarsAfter(cfg, me, start, after + later).bucket == VarsAfter(cfg, me, start, trace + later).bucket
            && forall n :: 0 < n <= |later| ==> AnswersAlike(cfg, me, start, after + later[..n], trace + later[..n])
  {
    var after := trace + [Beat(at, OnRead(Frame(Send(body))))];
    BadSend(cfg, me, start, trace, at, body);
    hide LastReaction, VarsAfter, AnswersAlike;
    SameBucketAhead(cfg, me, start, after, trace, later);
    forall n | 0 < n <= |later| ensures AnswersAlike(cfg, me, start, after + later[..n], trace + later[..n]) {
      SameBucketSameAnswer(cfg, me, start, after, trace, later[..n]);
    }
  }
}
