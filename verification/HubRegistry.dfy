/** Who owns what: keys, entries and the counter, in every interleaving. */
module HubRegistry {
  import opened Wrappers
  import opened Utf8
  import opened HubMachine

  /** Keys are fresh allocations, one a session. */
  predicate KeysOk(h: Hub) {
    && (forall s :: 0 <= s < |h.actors| ==>
          var a := h.actors[s];
          && (a.stage == Idle ==> a == NEWCOMER)
          && (a.stage == Registering ==> a.claim.None? && a.mail == EMPTY_MAILBOX)
          && (a.stage != Idle ==> a.key.Some? && a.key.value.alloc < h.nextAlloc)
          && (Holding(a.stage) || a.stage.Removed? || a.stage.Closing? ==> a.claim.Some?)
          && (a.claim.None? ==> a.mail.enq == []))
    && (forall s, t :: 0 <= s < |h.actors| && 0 <= t < |h.actors| && s != t
          && h.actors[s].key.Some? && h.actors[t].key.Some?
          ==> h.actors[s].key.value.alloc != h.actors[t].key.value.alloc)
  }

  /** Entries and the sessions that inserted them match one to one. */
  predicate ClaimsOk(h: Hub) {
    && (forall i :: 0 <= i < |h.claims| ==>
          && At(h, h.claims[i].addr)
          && h.actors[h.claims[i].addr].claim == Some(i)
          && h.actors[h.claims[i].addr].key == Some(h.claims[i].key))
    && (forall s :: 0 <= s < |h.actors| && h.actors[s].claim.Some? ==>
          && h.actors[s].claim.value < |h.claims|
          && h.claims[h.actors[s].claim.value].addr == s)
  }

  /** The map holds exactly the entries of the sessions that hold a claim. */
  predicate MapOk(h: Hub) {
    && (forall n :: n in h.registry ==> h.registry[n] < |h.claims| && h.claims[h.registry[n]].key.name == n)
    && (forall s :: 0 <= s < |h.actors| && h.actors[s].claim.Some? ==>
          (Holding(h.actors[s].stage) <==> Present(h, h.actors[s].claim.value)))
  }

  predicate RegistryOk(h: Hub) { KeysOk(h) && ClaimsOk(h) && MapOk(h) }

  // ----- steps that leave ownership alone -----

  predicate Steady(a: Actor, b: Actor) {
    || a == b
    || (&& b.key == a.key && a.key.Some? && b.claim == a.claim
        && (Holding(b.stage) <==> Holding(a.stage))
        && b.stage != Idle && b.stage != Registering && a.stage != Idle
        && (a.claim.Some? || (b.stage == Gone && b.mail == a.mail)))
  }

  predicate SameOwners(h: Hub, k: Hub) {
    && k.registry == h.registry && k.claims == h.claims && k.nextAlloc == h.nextAlloc
    && |k.actors| == |h.actors|
    && forall s :: 0 <= s < |h.actors| ==> Steady(h.actors[s], k.actors[s])
  }

  lemma SameOwnersKeepsKeys(h: Hub, k: Hub)
    requires KeysOk(h) && SameOwners(h, k)
    ensures KeysOk(k)
  {
  }

  lemma SameOwnersKeepsClaims(h: Hub, k: Hub)
    requires KeysOk(h) && ClaimsOk(h) && MapOk(h) && SameOwners(h, k)
    ensures ClaimsOk(k) && MapOk(k)
  {
    forall i: nat ensures Present(h, i) <==> Present(k, i) {}
  }

  lemma OneActorKeepsOwners(h: Hub, k: Hub, s: Sid, b: Actor)
    requires At(h, s) && k.actors == h.actors[s := b] && Steady(h.actors[s], b)
    requires k.registry == h.registry && k.claims == h.claims && k.nextAlloc == h.nextAlloc
    ensures SameOwners(h, k)
  {
  }

  /** Steps of one session that stay inside its claim. */
  lemma OwnStepsKeepOwners(h: Hub, ev: Event)
    requires RegistryOk(h) && Enabled(h, ev)
    requires ev.Add? || ev.Publish? || ev.EndCast? || ev.GiveUp? || ev.Sub? || ev.Close? || ev.Take?
    ensures SameOwners(h, Next(h, ev))
  {
    hide ClaimsOk, MapOk;
    var k := Next(h, ev);
    OneActorKeepsOwners(h, k, ev.s, k.actors[ev.s]);
  }

  lemma LostNameKeepsOwners(h: Hub, s: Sid)
    requires RegistryOk(h) && Enabled(h, Insert(s)) && NameOf(h, s) in h.registry
    ensures SameOwners(h, Next(h, Insert(s)))
  {
    var k := Next(h, Insert(s));
    OneActorKeepsOwners(h, k, s, k.actors[s]);
  }

  lemma VisitKeepsOwners(h: Hub, s: Sid, i: nat)
    requires RegistryOk(h) && Enabled(h, Visit(s, i))
    ensures SameOwners(h, Next(h, Visit(s, i)))
  {
    var t := h.claims[i].addr;
    assert h.actors[t].claim == Some(i);
  }

  // ----- the four that do not -----

  lemma SpawnKeepsRegistry(h: Hub)
    requires RegistryOk(h)
    ensures RegistryOk(Next(h, Spawn))
  {
    var k := Next(h, Spawn);
    forall i: nat ensures Present(h, i) <==> Present(k, i) {}
  }

  lemma MakeKeyKeepsRegistry(h: Hub, s: Sid, name: Str)
    requires RegistryOk(h) && Enabled(h, MakeKey(s, name))
    ensures RegistryOk(Next(h, MakeKey(s, name)))
  {
    var k := Next(h, MakeKey(s, name));
    assert h.actors[s] == NEWCOMER;
    forall i: nat ensures Present(h, i) <==> Present(k, i) {}
  }

  lemma InsertKeepsRegistry(h: Hub, s: Sid)
    requires RegistryOk(h) && Enabled(h, Insert(s)) && NameOf(h, s) !in h.registry
    ensures RegistryOk(Next(h, Insert(s)))
  {
    hide Next, KeysOk, ClaimsOk, MapOk;
    InsertKeepsKeys(h, s);
    InsertKeepsClaims(h, s);
    InsertKeepsMap(h, s);
  }

  lemma InsertKeepsKeys(h: Hub, s: Sid)
    requires KeysOk(h) && Enabled(h, Insert(s)) && NameOf(h, s) !in h.registry
    ensures KeysOk(Next(h, Insert(s)))
  {
  }

  lemma InsertKeepsClaims(h: Hub, s: Sid)
    requires KeysOk(h) && ClaimsOk(h) && Enabled(h, Insert(s)) && NameOf(h, s) !in h.registry
    ensures ClaimsOk(Next(h, Insert(s)))
  {
  }

  lemma InsertKeepsMap(h: Hub, s: Sid)
    requires RegistryOk(h) && Enabled(h, Insert(s)) && NameOf(h, s) !in h.registry
    ensures MapOk(Next(h, Insert(s)))
  {
    var k := Next(h, Insert(s));
    forall i: nat ensures Present(k, i) <==> Present(h, i) || i == |h.claims| {}
  }

  /** A drop removes its own entry and nobody else's: the name it removes by is in the map, and
      the entry found there is the one this session inserted, under this very key. */
  lemma RemoveFindsOwnEntry(h: Hub, s: Sid)
    requires RegistryOk(h) && Enabled(h, Remove(s))
    ensures NameOf(h, s) in h.registry
    ensures h.actors[s].claim == Some(h.registry[NameOf(h, s)])
    ensures h.claims[h.registry[NameOf(h, s)]] == Entry(h.actors[s].key.value, s)
  {
    assert Present(h, h.actors[s].claim.value);
  }

  lemma RemoveKeepsRegistry(h: Hub, s: Sid)
    requires RegistryOk(h) && Enabled(h, Remove(s))
    ensures RegistryOk(Next(h, Remove(s)))
  {
    hide Next, KeysOk, ClaimsOk, MapOk;
    RemoveFindsOwnEntry(h, s);
    RemoveKeepsKeys(h, s);
    RemoveKeepsMap(h, s);
  }

  lemma RemoveKeepsKeys(h: Hub, s: Sid)
    requires KeysOk(h) && ClaimsOk(h) && Enabled(h, Remove(s)) && NameOf(h, s) in h.registry
    ensures KeysOk(Next(h, Remove(s))) && ClaimsOk(Next(h, Remove(s)))
  {
  }

  lemma RemoveKeepsMap(h: Hub, s: Sid)
    requires RegistryOk(h) && Enabled(h, Remove(s)) && NameOf(h, s) in h.registry
    requires h.actors[s].claim == Some(h.registry[NameOf(h, s)])
    ensures MapOk(Next(h, Remove(s)))
  {
    hide KeysOk;
    var k := Next(h, Remove(s));
    var c := h.actors[s].claim.value;
    forall i: nat ensures Present(k, i) <==> Present(h, i) && i != c {}
  }

  /** Ownership is an invariant of every step. */
  lemma RegistryStep(h: Hub, ev: Event)
    requires RegistryOk(h) && Enabled(h, ev)
    ensures RegistryOk(Next(h, ev))
  {
    hide Next, KeysOk, ClaimsOk, MapOk, SameOwners;
    if ev.Spawn? {
      SpawnKeepsRegistry(h);
    } else if ev.MakeKey? {
      MakeKeyKeepsRegistry(h, ev.s, ev.name);
    } else if ev.Remove? {
      RemoveKeepsRegistry(h, ev.s);
    } else if ev.Insert? && NameOf(h, ev.s) !in h.registry {
      InsertKeepsRegistry(h, ev.s);
    } else {
      StaysPut(h, ev);
      SameOwnersKeepsKeys(h, Next(h, ev));
      SameOwnersKeepsClaims(h, Next(h, ev));
    }
  }

  predicate MovesOwnership(h: Hub, ev: Event)
    requires Enabled(h, ev)
  {
    ev.Spawn? || ev.MakeKey? || ev.Remove? || (ev.Insert? && NameOf(h, ev.s) !in h.registry)
  }

  lemma StaysPut(h: Hub, ev: Event)
    requires RegistryOk(h) && Enabled(h, ev) && !MovesOwnership(h, ev)
    ensures SameOwners(h, Next(h, ev))
  {
    hide Next, SameOwners;
    if ev.Visit? {
      VisitKeepsOwners(h, ev.s, ev.i);
    } else if ev.Insert? {
      LostNameKeepsOwners(h, ev.s);
    } else {
      OwnStepsKeepOwners(h, ev);
    }
  }
}
