/** The token bucket over whole histories of calls, in exact arithmetic
    (server/src/actor/ratelimit.rs). Times are seconds since some origin. */
module TokenBucket {
  import opened Clock

  datatype Limits = Limits(capacity: real, rate: real) {
    predicate Valid() { capacity >= 0.0 && rate >= 0.0 }
  }

  datatype Bucket = Bucket(tokens: real, lastRefill: real)

  datatype Call = Call(at: real, cost: real)

  /** `Instant::duration_since` is zero for an earlier instant. */
  function Elapsed(since: real, now: real): real { if now >= since then now - since else 0.0 }

  /** The tokens earned in a time of that length. */
  function Earned(l: Limits, length: real): real { length * l.rate }

  function Refill(l: Limits, b: Bucket, now: real): real {
    var t := b.tokens + Earned(l, Elapsed(b.lastRefill, now));
    if t < l.capacity then t else l.capacity
  }

  predicate Admits(l: Limits, b: Bucket, c: Call) { Refill(l, b, c.at) >= c.cost }

  function Consume(l: Limits, b: Bucket, c: Call): Bucket {
    var t := Refill(l, b, c.at);
    Bucket(if t >= c.cost then t - c.cost else t, c.at)
  }

  /** A clock that has not moved on, or has run backwards, earns nothing; the call is still the latest. */
  lemma BackwardsEarnsNothing(l: Limits, b: Bucket, c: Call)
    requires b.tokens <= l.capacity && c.at <= b.lastRefill
    ensures Admits(l, b, c) <==> c.cost <= b.tokens
    ensures Consume(l, b, c) == Bucket(if c.cost <= b.tokens then b.tokens - c.cost else b.tokens, c.at)
  {
    assert Earned(l, 0.0) == 0.0;
  }

  // ----- histories, latest call last -----

  /** The bucket after a history of calls on a limiter created at `start`. */
  function After(l: Limits, start: real, calls: seq<Call>): Bucket {
    if calls == [] then Bucket(l.capacity, start)
    else Consume(l, After(l, start, calls[..|calls| - 1]), calls[|calls| - 1])
  }

  /** Whether the last call of a history was admitted. */
  predicate LastAdmitted(l: Limits, start: real, calls: seq<Call>)
    requires calls != []
  {
    Admits(l, After(l, start, calls[..|calls| - 1]), calls[|calls| - 1])
  }

  /** Times never decrease, and the limiter is created before the first call. */
  predicate Ordered(start: real, calls: seq<Call>, now: real) { NeverBackwards(CallTime, start, calls, now) }

  function CallTime(c: Call): real { c.at }

  /** The cost admitted by the calls from index `i` on. */
  function Spent(l: Limits, start: real, calls: seq<Call>, i: nat): real {
    if |calls| <= i then 0.0
    else
      Spent(l, start, calls[..|calls| - 1], i)
      + (if LastAdmitted(l, start, calls) then calls[|calls| - 1].cost else 0.0)
  }

  /** How much more the window that opens at call `i` and closes at `now` may admit. The window
      at index `|calls|` opens at `now` itself. */
  function Room(l: Limits, start: real, calls: seq<Call>, i: nat, now: real): real
    requires i <= |calls|
  {
    if i == |calls| then l.capacity
    else l.capacity + Earned(l, now - calls[i].at) - Spent(l, start, calls, i)
  }

  lemma EarnedAdds(l: Limits, a: real, b: real, c: real)
    ensures Earned(l, c - a) == Earned(l, b - a) + Earned(l, c - b)
  {
    assert c - a == (b - a) + (c - b);
  }

  lemma EarnedGrows(l: Limits, short: real, long: real)
    requires l.Valid() && short <= long
    ensures Earned(l, short) <= Earned(l, long)
    ensures short >= 0.0 ==> Earned(l, short) >= 0.0
  {
  }

  /** How one more call moves every window's room. */
  lemma RoomStep(l: Limits, start: real, calls: seq<Call>, front: seq<Call>, last: Call, i: nat, now: real)
    requires calls != [] && i < |calls| && front == calls[..|calls| - 1] && last == calls[|calls| - 1]
    ensures Room(l, start, calls, i, now)
         == Room(l, start, front, i, last.at) + Earned(l, now - last.at)
            - (if LastAdmitted(l, start, calls) then last.cost else 0.0)
  {
    hide Earned, After, LastAdmitted;
    if i < |front| {
      EarnedAdds(l, calls[i].at, last.at, now);
      assert front[i] == calls[i];
    } else {
      assert Spent(l, start, front, i) == 0.0;
    }
  }

  /** How one more call moves the tokens on hand. */
  lemma TokensStep(l: Limits, start: real, calls: seq<Call>, front: seq<Call>, last: Call, now: real)
    requires calls != [] && front == calls[..|calls| - 1] && last == calls[|calls| - 1] && last.at <= now
    ensures var t := Refill(l, After(l, start, front), last.at) + Earned(l, now - last.at)
                     - (if LastAdmitted(l, start, calls) then last.cost else 0.0);
            Refill(l, After(l, start, calls), now) == if t < l.capacity then t else l.capacity
  {
    hide Earned;
  }

  /** The window that holds the bucket down. */
  function Tightest(l: Limits, start: real, calls: seq<Call>, now: real): (i: nat)
    ensures i <= |calls|
  {
    if calls == [] || Refill(l, After(l, start, calls), now) == l.capacity then |calls|
    else Tightest(l, start, calls[..|calls| - 1], calls[|calls| - 1].at)
  }

  /** The tokens on hand are the least room of any window: no window is exceeded, and the
      tightest one is what holds the bucket down. */
  lemma {:induction false} TokensAreLeastRoom(l: Limits, start: real, calls: seq<Call>, now: real)
    requires Ordered(start, calls, now) && l.Valid()
    ensures Refill(l, After(l, start, calls), now) == Room(l, start, calls, Tightest(l, start, calls, now), now)
    ensures forall i :: 0 <= i <= |calls| ==> Refill(l, After(l, start, calls), now) <= Room(l, start, calls, i, now)
    decreases |calls|
  {
    hide Earned, LastAdmitted;
    if calls == [] {
      EarnedGrows(l, 0.0, now - start);
      EarnedGrows(l, now - start, now - start);
    } else {
      var front, last := calls[..|calls| - 1], calls[|calls| - 1];
      TokensAreLeastRoom(l, start, front, last.at);
      TokensStep(l, start, calls, front, last, now);
      RoomStep(l, start, calls, front, last, Tightest(l, start, front, last.at), now);
      forall i | 0 <= i < |calls|
        ensures Refill(l, After(l, start, calls), now) <= Room(l, start, calls, i, now)
      {
        RoomStep(l, start, calls, front, last, i, now);
      }
    }
  }

  lemma AdmissionByRoom(l: Limits, start: real, calls: seq<Call>, c: Call)
    requires Ordered(start, calls, c.at) && l.Valid()
    ensures Admits(l, After(l, start, calls), c)
       <==> && c.cost <= l.capacity
            && forall i :: 0 <= i < |calls| ==>
                 Spent(l, start, calls, i) + c.cost <= l.capacity + Earned(l, c.at - calls[i].at)
  {
    hide Earned, Refill, After, Spent;
    TokensAreLeastRoom(l, start, calls, c.at);
    var tight := Tightest(l, start, calls, c.at);
    assert tight < |calls| ==>
        Room(l, start, calls, tight, c.at)
        == l.capacity + Earned(l, c.at - calls[tight].at) - Spent(l, start, calls, tight);
    assert Room(l, start, calls, |calls|, c.at) == l.capacity;
    forall i | 0 <= i < |calls|
      ensures Refill(l, After(l, start, calls), c.at)
           <= l.capacity + Earned(l, c.at - calls[i].at) - Spent(l, start, calls, i)
    {
      assert Refill(l, After(l, start, calls), c.at) <= Room(l, start, calls, i, c.at);
    }
  }

  /** The limiter is exact: a call is admitted if and only if every window, from any earlier call
      up to now, would still hold at most capacity plus rate times its length, and the cost by
      itself fits the capacity. */
  lemma AdmissionIsExact(l: Limits, start: real, calls: seq<Call>, c: Call)
    requires Ordered(start, calls, c.at) && l.Valid()
    ensures Admits(l, After(l, start, calls), c)
       <==> && c.cost <= l.capacity
            && forall i :: 0 <= i < |calls| ==>
                 Spent(l, start, calls, i) + c.cost <= l.capacity + (c.at - calls[i].at) * l.rate
  {
    hide Refill, After, Spent, Admits, Ordered;
    AdmissionByRoom(l, start, calls, c);
  }

  // ----- rejected calls leave no trace -----

  /** The history without its rejected calls. */
  function Admitted(l: Limits, start: real, calls: seq<Call>): seq<Call> {
    if calls == [] then []
    else
      var kept := Admitted(l, start, calls[..|calls| - 1]);
      if LastAdmitted(l, start, calls) then kept + [calls[|calls| - 1]] else kept
  }

  /** Refilling at `mid` on the way to `now` changes nothing. */
  lemma RefillTwice(l: Limits, b: Bucket, mid: real, now: real)
    requires l.Valid() && b.lastRefill <= mid <= now
    ensures Refill(l, Bucket(Refill(l, b, mid), mid), now) == Refill(l, b, now)
  {
    hide Earned;
    EarnedAdds(l, b.lastRefill, mid, now);
    EarnedGrows(l, now - mid, now - mid);
    EarnedGrows(l, mid - b.lastRefill, mid - b.lastRefill);
  }

  lemma {:induction false} AdmittedOrdered(l: Limits, start: real, calls: seq<Call>, now: real)
    requires Ordered(start, calls, now)
    ensures Ordered(start, Admitted(l, start, calls), now)
    ensures After(l, start, Admitted(l, start, calls)).lastRefill <= now
    ensures After(l, start, calls).lastRefill <= now
    decreases |calls|
  {
    if calls != [] {
      var front, last := calls[..|calls| - 1], calls[|calls| - 1];
      AdmittedOrdered(l, start, front, last.at);
      AdmittedOrderedLater(l, start, Admitted(l, start, front), last.at, now);
      var kept := Admitted(l, start, front);
      assert (kept + [last])[..|kept|] == kept;
    }
  }

  lemma AdmittedOrderedLater(l: Limits, start: real, calls: seq<Call>, earlier: real, now: real)
    requires Ordered(start, calls, earlier) && earlier <= now
    ensures Ordered(start, calls, now)
  {
  }

  /** Deleting every rejected call from a history changes no later answer. */
  lemma {:induction false} RejectionsLeaveNoTrace(l: Limits, start: real, calls: seq<Call>, c: Call)
    requires Ordered(start, calls, c.at) && l.Valid()
    ensures Refill(l, After(l, start, Admitted(l, start, calls)), c.at) == Refill(l, After(l, start, calls), c.at)
    ensures Admits(l, After(l, start, Admitted(l, start, calls)), c) <==> Admits(l, After(l, start, calls), c)
    decreases |calls|
  {
    if calls != [] {
      var front, last := calls[..|calls| - 1], calls[|calls| - 1];
      var kept := Admitted(l, start, front);
      RejectionsLeaveNoTrace(l, start, front, last);
      AdmittedOrdered(l, start, front, last.at);
      if LastAdmitted(l, start, calls) {
        assert (kept + [last])[..|kept|] == kept;
      } else {
        RefillTwice(l, After(l, start, front), last.at, c.at);
        RefillTwice(l, After(l, start, kept), last.at, c.at);
      }
    }
  }

  /** When a rejected call leaves the limiter as it is: exactly when it comes at the very moment of
      the call before it. Otherwise it moves `lastRefill`, and `tokens` too unless nothing can be
      earned. */
  lemma RejectionKeepsBucket(l: Limits, b: Bucket, c: Call)
    requires l.Valid() && b.tokens <= l.capacity && b.lastRefill <= c.at && !Admits(l, b, c)
    ensures Consume(l, b, c) == b <==> c.at == b.lastRefill
    ensures Consume(l, b, c).tokens == b.tokens <==> c.at == b.lastRefill || l.rate == 0.0 || b.tokens == l.capacity
  {
    var e := c.at - b.lastRefill;
    if e > 0.0 && l.rate > 0.0 { assert e * l.rate > 0.0; } else { assert e * l.rate == 0.0; }
  }

  /** A rejected call that moves both fields. */
  lemma RejectionMayMoveBucket()
    ensures exists l: Limits, b: Bucket, c: Call ::
              && l.Valid() && b == After(l, 0.0, [Call(0.0, 1.0)]) && !Admits(l, b, c)
              && Consume(l, b, c).tokens != b.tokens && Consume(l, b, c).lastRefill != b.lastRefill
  {
    var l, first, c := Limits(1.0, 1.0), [Call(0.0, 1.0)], Call(0.5, 1.0);
    assert first[..0] == [];
    assert After(l, 0.0, first[..0]) == Bucket(1.0, 0.0);
    assert After(l, 0.0, first) == Bucket(0.0, 0.0);
    assert Consume(l, Bucket(0.0, 0.0), c) == Bucket(0.5, 0.5);
  }

  // ----- any window of time -----

  /** The cost admitted by the calls made in the closed interval from `a` to `b`. */
  function SpentWithin(l: Limits, start: real, calls: seq<Call>, a: real, b: real): real {
    if calls == [] then 0.0
    else
      var last := calls[|calls| - 1];
      SpentWithin(l, start, calls[..|calls| - 1], a, b)
      + (if a <= last.at <= b && LastAdmitted(l, start, calls) then last.cost else 0.0)
  }

  /** The first call made at `a` or later. */
  function FirstFrom(calls: seq<Call>, a: real): (i: nat)
    ensures i <= |calls|
  {
    if calls == [] || calls[|calls| - 1].at < a then |calls| else FirstFrom(calls[..|calls| - 1], a)
  }

  lemma {:induction false} WithinIsSpent(l: Limits, start: real, calls: seq<Call>, a: real, b: real)
    requires Ordered(start, calls, b)
    ensures SpentWithin(l, start, calls, a, b) == Spent(l, start, calls, FirstFrom(calls, a))
    ensures FirstFrom(calls, a) < |calls| ==> calls[FirstFrom(calls, a)].at >= a
    decreases |calls|
  {
    if calls != [] {
      var front, last := calls[..|calls| - 1], calls[|calls| - 1];
      if last.at < a {
        NoneWithin(l, start, front, a, b, last.at);
      } else {
        WithinIsSpent(l, start, front, a, last.at);
        WithinShrinks(l, start, front, a, last.at, b);
        var i := FirstFrom(front, a);
        assert i < |front| ==> front[i] == calls[i];
      }
    }
  }

  lemma {:induction false} NoneWithin(l: Limits, start: real, calls: seq<Call>, a: real, b: real, now: real)
    requires Ordered(start, calls, now) && now < a
    ensures SpentWithin(l, start, calls, a, b) == 0.0
    decreases |calls|
  {
    if calls != [] {
      NoneWithin(l, start, calls[..|calls| - 1], a, b, calls[|calls| - 1].at);
    }
  }

  lemma {:induction false} WithinShrinks(l: Limits, start: real, calls: seq<Call>, a: real, now: real, b: real)
    requires Ordered(start, calls, now) && now <= b
    ensures SpentWithin(l, start, calls, a, b) == SpentWithin(l, start, calls, a, now)
    decreases |calls|
  {
    if calls != [] {
      var front, last := calls[..|calls| - 1], calls[|calls| - 1];
      WithinShrinks(l, start, front, a, last.at, now);
      WithinShrinks(l, start, front, a, last.at, b);
    }
  }

  lemma {:induction false} WindowByRoom(l: Limits, start: real, calls: seq<Call>, now: real, a: real, b: real)
    requires Ordered(start, calls, now) && l.Valid() && a <= b
    ensures SpentWithin(l, start, calls, a, b) <= l.capacity + Earned(l, b - a)
    decreases |calls|
  {
    EarnedGrows(l, b - a, b - a);
    if calls != [] {
      var front, last := calls[..|calls| - 1], calls[|calls| - 1];
      if a <= last.at <= b && LastAdmitted(l, start, calls) {
        LastInWindow(l, start, calls, front, last, a, b);
      } else {
        WindowByRoom(l, start, front, last.at, a, b);
      }
    }
  }

  /** However calls are made, any window of time admits at most capacity plus rate times its
      length. */
  lemma WindowBound(l: Limits, start: real, calls: seq<Call>, now: real, a: real, b: real)
    requires Ordered(start, calls, now) && l.Valid() && a <= b
    ensures SpentWithin(l, start, calls, a, b) <= l.capacity + (b - a) * l.rate
  {
    hide SpentWithin, Ordered, Earned;
    WindowByRoom(l, start, calls, now, a, b);
    EarnedInFigures(l, b - a);
  }

  lemma EarnedInFigures(l: Limits, length: real)
    ensures Earned(l, length) == length * l.rate
  {
  }

  lemma LastInWindow(l: Limits, start: real, calls: seq<Call>, front: seq<Call>, last: Call, a: real, b: real)
    requires l.Valid() && calls != [] && front == calls[..|calls| - 1] && last == calls[|calls| - 1]
    requires Ordered(start, front, last.at) && a <= last.at <= b && LastAdmitted(l, start, calls)
    ensures SpentWithin(l, start, calls, a, b) <= l.capacity + Earned(l, b - a)
  {
    hide Earned, Refill, After;
    EarnedGrows(l, b - a, b - a);
    AdmissionByRoom(l, start, front, last);
    WithinIsSpent(l, start, front, a, last.at);
    WithinShrinks(l, start, front, a, last.at, b);
    var i := FirstFrom(front, a);
    if i < |front| {
      EarnedGrows(l, last.at - front[i].at, b - a);
    }
  }
}
