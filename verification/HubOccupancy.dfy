/** The occupancy counter against the sessions and the map it is meant to follow. */
module HubOccupancy {
  import opened HubMachine
  import opened HubRegistry

  function One(b: bool): nat { if b then 1 else 0 }

  /** How many sessions are at a stage that satisfies `p`. */
  function Count(actors: seq<Actor>, p: Stage -> bool): nat {
    if actors == [] then 0
    else Count(actors[..|actors| - 1], p) + One(p(actors[|actors| - 1].stage))
  }

  lemma {:induction false} CountSet(actors: seq<Actor>, p: Stage -> bool, s: Sid, b: Actor)
    requires s < |actors|
    ensures Count(actors[s := b], p) + One(p(actors[s].stage)) == Count(actors, p) + One(p(b.stage))
    decreases |actors|
  {
    var n := |actors| - 1;
    if s == n {
      assert actors[s := b][..n] == actors[..n];
    } else {
      CountSet(actors[..n], p, s, b);
      assert actors[s := b][..n] == actors[..n][s := b];
    }
  }

  lemma CountPush(actors: seq<Actor>, p: Stage -> bool, b: Actor)
    ensures Count(actors + [b], p) == Count(actors, p) + One(p(b.stage))
  {
    assert (actors + [b])[..|actors|] == actors;
  }

  lemma {:induction false} CountPositive(actors: seq<Actor>, p: Stage -> bool, s: Sid)
    requires s < |actors| && p(actors[s].stage)
    ensures Count(actors, p) >= 1
    decreases |actors|
  {
    if s < |actors| - 1 { CountPositive(actors[..|actors| - 1], p, s); }
  }

  lemma {:induction false} CountAgree(actors: seq<Actor>, p: Stage -> bool, q: Stage -> bool)
    requires forall s :: 0 <= s < |actors| ==> (p(actors[s].stage) <==> q(actors[s].stage))
    ensures Count(actors, p) == Count(actors, q)
    decreases |actors|
  {
    if actors != [] { CountAgree(actors[..|actors| - 1], p, q); }
  }

  lemma {:induction false} CountNone(actors: seq<Actor>, p: Stage -> bool)
    requires forall s :: 0 <= s < |actors| ==> !p(actors[s].stage)
    ensures Count(actors, p) == 0
    decreases |actors|
  {
    if actors != [] { CountNone(actors[..|actors| - 1], p); }
  }

  /** The counter counts the sessions between their add and their sub, the map's size those
      between their insertion and their removal. */
  predicate OccupancyOk(h: Hub) {
    && h.occupancy == Count(h.actors, Counted)
    && |h.registry| == Count(h.actors, Holding)
  }

  lemma OneActorCounts(h: Hub, k: Hub, s: Sid, b: Actor)
    requires At(h, s) && k.actors == h.actors[s := b]
    ensures Count(k.actors, Counted)
         == Count(h.actors, Counted) + One(Counted(b.stage)) - One(Counted(h.actors[s].stage))
    ensures Count(k.actors, Holding)
         == Count(h.actors, Holding) + One(Holding(b.stage)) - One(Holding(h.actors[s].stage))
  {
    CountSet(h.actors, Counted, s, b);
    CountSet(h.actors, Holding, s, b);
  }

  lemma VisitCounts(h: Hub, s: Sid, i: nat)
    requires RegistryOk(h) && OccupancyOk(h) && Enabled(h, Visit(s, i))
    ensures OccupancyOk(Next(h, Visit(s, i)))
  {
    hide RegistryOk, Offer;
    var st := h.actors[s].stage;
    var h' := SetStage(h, s, MarkSeen(st, i));
    OneActorCounts(h, h', s, h'.actors[s]);
    var k := Next(h, Visit(s, i));
    var t := h.claims[i].addr;
    if !SamePointer(h, s, i) {
      OneActorCounts(h', k, t, k.actors[t]);
    }
  }

  lemma RemoveCounts(h: Hub, s: Sid)
    requires RegistryOk(h) && OccupancyOk(h) && Enabled(h, Remove(s))
    ensures OccupancyOk(Next(h, Remove(s)))
  {
    hide RegistryOk;
    RemoveFindsOwnEntry(h, s);
    var k := Next(h, Remove(s));
    OneActorCounts(h, k, s, k.actors[s]);
    assert k.registry.Keys == h.registry.Keys - {NameOf(h, s)};
    assert |k.registry| == |k.registry.Keys| && |h.registry| == |h.registry.Keys|;
  }

  lemma InsertCounts(h: Hub, s: Sid)
    requires OccupancyOk(h) && Enabled(h, Insert(s))
    ensures OccupancyOk(Next(h, Insert(s)))
  {
    var k := Next(h, Insert(s));
    OneActorCounts(h, k, s, k.actors[s]);
  }

  lemma OwnStepCounts(h: Hub, ev: Event)
    requires OccupancyOk(h) && Enabled(h, ev)
    requires ev.MakeKey? || ev.Add? || ev.Publish? || ev.EndCast? || ev.GiveUp? || ev.Sub? || ev.Close? || ev.Take?
    ensures OccupancyOk(Next(h, ev))
  {
    var k := Next(h, ev);
    OneActorCounts(h, k, ev.s, k.actors[ev.s]);
  }

  lemma SpawnCounts(h: Hub)
    requires OccupancyOk(h)
    ensures OccupancyOk(Next(h, Spawn))
  {
    CountPush(h.actors, Counted, NEWCOMER);
    CountPush(h.actors, Holding, NEWCOMER);
  }

  lemma OccupancyStep(h: Hub, ev: Event)
    requires RegistryOk(h) && OccupancyOk(h) && Enabled(h, ev)
    ensures OccupancyOk(Next(h, ev))
  {
    hide Next, OccupancyOk, RegistryOk;
    if ev.Spawn? {
      SpawnCounts(h);
    } else if ev.Insert? {
      InsertCounts(h, ev.s);
    } else if ev.Visit? {
      VisitCounts(h, ev.s, ev.i);
    } else if ev.Remove? {
      RemoveCounts(h, ev.s);
    } else {
      OwnStepCounts(h, ev);
    }
  }

  /** No session is between its insertion and its add, or between its removal and its sub. */
  predicate NoneHalfDone(h: Hub) {
    forall s :: 0 <= s < |h.actors| ==> !h.actors[s].stage.Inserted? && !h.actors[s].stage.Removed?
  }

  /** The counter never underflows, equals the map's size whenever no registration or release is
      half done, and is at least one for a session that has been counted. */
  lemma OccupancyFollowsMap(h: Hub)
    requires OccupancyOk(h)
    ensures h.occupancy >= 0
    ensures forall s :: Enabled(h, Sub(s)) ==> Next(h, Sub(s)).occupancy >= 0
    ensures forall s :: 0 <= s < |h.actors| && Counted(h.actors[s].stage) ==> h.occupancy >= 1
    ensures NoneHalfDone(h) ==> h.occupancy == |h.registry|
  {
    forall s | 0 <= s < |h.actors| && Counted(h.actors[s].stage) ensures h.occupancy >= 1 {
      CountPositive(h.actors, Counted, s);
    }
    if NoneHalfDone(h) {
      CountAgree(h.actors, Counted, Holding);
    }
  }
}
