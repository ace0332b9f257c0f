/** What a session has been told about who is in the room. */
module HubPresence {
  import opened Wrappers
  import opened Utf8
  import opened Frames
  import opened HubMachine
  import opened HubRegistry
  import opened HubBroadcasts

  datatype Mark = Nothing | HasJoined | HasDeparted

  function Told(m: Mark, f: ServerFrame, u: Str): Mark {
    match f
    case Joined(n) => if n == u then HasJoined else m
    case Departed(n) => if n == u then HasDeparted else m
    case _ => m
  }

  /** The last presence frame about `u` among the queued frames. */
  function LastMark(enq: seq<Item>, u: Str): Mark {
    if enq == [] then Nothing
    else Told(LastMark(enq[..|enq| - 1], u), enq[|enq| - 1].frame, u)
  }

  /** What the owner of entry `o` may have been told about the holder of entry `i`, who is at
      stage `st`. */
  predicate StageFits(st: Stage, o: nat, i: nat, m: Mark) {
    match st
    case Inserted => m != HasJoined && (i < o ==> m == Nothing)
    case Silent => m != HasJoined && (i < o ==> m == Nothing)
    case Joining(it) =>
      if o in it.seen then m == HasJoined else m != HasJoined && (i < o ==> m == Nothing)
    case Open => (o < i ==> m == HasJoined) && (i < o ==> m != HasDeparted)
    case Messaging(_) => (o < i ==> m == HasJoined) && (i < o ==> m != HasDeparted)
    case Departing(it) =>
      if o in it.seen then m == HasDeparted
      else (o < i ==> m == HasJoined) && (i < o ==> m != HasDeparted) && (m == HasJoined ==> o in it.start)
    case _ => m != HasJoined
  }

  predicate Lossless(m: Mailbox) { m.full == 0 && m.closed == 0 }

  /** What the owner of entry `o` may have been told about `u`. */
  predicate MarkFits(h: Hub, o: nat, u: Str, m: Mark) {
    match HolderOf(h, u)
    case None => m != HasJoined
    case Some(t) => At(h, t) && StageFits(h.actors[t].stage, o, h.registry[u], m)
  }

  /** The owner of a present entry, none of whose frames was dropped, and another name. */
  predicate Watches(h: Hub, o: nat, u: Str) {
    && Present(h, o) && h.claims[o].key.name != u
    && At(h, h.claims[o].addr) && Lossless(h.actors[h.claims[o].addr].mail)
  }

  function ToldAbout(h: Hub, o: nat, u: Str): Mark
    requires o < |h.claims| && At(h, h.claims[o].addr)
  {
    LastMark(h.actors[h.claims[o].addr].mail.enq, u)
  }

  ghost predicate PresenceOk(h: Hub) {
    forall o: nat, u: Str :: Watches(h, o, u) ==> MarkFits(h, o, u, ToldAbout(h, o, u))
  }

  // ----- steps that queue nothing -----

  predicate MailsKept(h: Hub, k: Hub) {
    && |k.actors| >= |h.actors|
    && forall s :: 0 <= s < |h.actors| ==>
         && k.actors[s].mail.enq == h.actors[s].mail.enq
         && (Lossless(k.actors[s].mail) <==> Lossless(h.actors[s].mail))
  }

  lemma NonVisitsKeepMails(h: Hub, ev: Event)
    requires KeysOk(h) && Enabled(h, ev) && !ev.Visit?
    ensures MailsKept(h, Next(h, ev))
  {
  }

  /** An entry present after the step was present before it, unless the step inserted it. */
  lemma WatchesBefore(h: Hub, ev: Event, o: nat, u: Str)
    requires RegistryOk(h) && Enabled(h, ev) && !ev.Visit?
    requires Watches(Next(h, ev), o, u) && o < |h.claims|
    ensures Watches(h, o, u) && ToldAbout(Next(h, ev), o, u) == ToldAbout(h, o, u)
  {
    NonVisitsKeepMails(h, ev);
    StepsDrift(h, ev);
    assert h.claims[o].addr < |h.actors|;
    hide Next;
  }

  lemma NewEntryKnowsNothing(h: Hub, s: Sid, u: Str)
    requires RegistryOk(h) && Enabled(h, Insert(s)) && NameOf(h, s) !in h.registry
    ensures ToldAbout(Next(h, Insert(s)), |h.claims|, u) == Nothing
  {
  }

  /** A session that has just been inserted can have been told nothing, whatever the others do. */
  lemma NothingFits(h: Hub, o: nat, u: Str)
    requires RegistryOk(h) && |h.claims| == o + 1
    requires forall s :: 0 <= s < |h.actors| && Casting(h.actors[s].stage) ==> o !in h.actors[s].stage.it.seen
    ensures MarkFits(h, o, u, Nothing)
  {
    if u in h.registry {
      assert Present(h, h.registry[u]);
    }
  }

  lemma InsertPresence(h: Hub, s: Sid)
    requires RegistryOk(h) && ItersOk(h) && PresenceOk(h) && Enabled(h, Insert(s)) && NameOf(h, s) !in h.registry
    ensures PresenceOk(Next(h, Insert(s)))
  {
    var k := Next(h, Insert(s));
    RegistryStep(h, Insert(s));
    QuietSteps(h, Insert(s));
    StepsDrift(h, Insert(s));
    QuietKeepsIters(h, k);
    forall o: nat, u: Str | Watches(k, o, u) ensures MarkFits(k, o, u, ToldAbout(k, o, u)) {
      if o == |h.claims| {
        NewEntryKnowsNothing(h, s, u);
        NewcomerUnseen(h, s);
        NothingFits(k, o, u);
      } else {
        WatchesBefore(h, Insert(s), o, u);
        InsertMarks(h, s, o, u, ToldAbout(h, o, u));
      }
    }
  }

  lemma NewcomerUnseen(h: Hub, s: Sid)
    requires RegistryOk(h) && ItersOk(h) && Enabled(h, Insert(s)) && NameOf(h, s) !in h.registry
    ensures var k := Next(h, Insert(s));
            forall r :: 0 <= r < |k.actors| && Casting(k.actors[r].stage) ==> |h.claims| !in k.actors[r].stage.it.seen
  {
    forall r | 0 <= r < |h.actors| && Casting(h.actors[r].stage) ensures |h.claims| !in h.actors[r].stage.it.seen {
      assert IterOk(h, r, h.actors[r].stage.it);
    }
  }

  lemma InsertMarks(h: Hub, s: Sid, o: nat, u: Str, m: Mark)
    requires RegistryOk(h) && Enabled(h, Insert(s)) && NameOf(h, s) !in h.registry
    requires o < |h.claims| && MarkFits(h, o, u, m)
    ensures MarkFits(Next(h, Insert(s)), o, u, m)
  {
    if u in h.registry {
      assert h.registry[u] < |h.claims|;
    }
  }

  lemma OwnStepMoves(h: Hub, ev: Event)
    requires Enabled(h, ev) && !ev.Spawn? && !ev.MakeKey? && !ev.Insert? && !ev.Visit? && !ev.Remove?
    ensures var k := Next(h, ev);
            && At(h, ev.s) && k.registry == h.registry && k.claims == h.claims && |k.actors| == |h.actors|
            && forall r :: 0 <= r < |h.actors| && r != ev.s ==> k.actors[r].stage == h.actors[r].stage
  {
  }

  /** How a step of one session that queues nothing moves what fits. */
  lemma OwnStepMarks(h: Hub, ev: Event, o: nat, u: Str, m: Mark)
    requires RegistryOk(h) && ItersOk(h) && Enabled(h, ev)
    requires !ev.Spawn? && !ev.MakeKey? && !ev.Insert? && !ev.Visit? && !ev.Remove?
    requires Present(h, o) && MarkFits(h, o, u, m)
    ensures MarkFits(Next(h, ev), o, u, m)
  {
    hide StageFits, ItersOk, Next, Enabled;
    OwnStepMoves(h, ev);
    var s := ev.s;
    if HolderOf(h, u) == Some(s) {
      HolderIs(h, u, s);
      OwnStageFits(h, ev, o, m);
    }
  }

  lemma HolderIs(h: Hub, u: Str, s: Sid)
    requires RegistryOk(h) && HolderOf(h, u) == Some(s)
    ensures At(h, s) && h.actors[s].claim == Some(h.registry[u]) && Holding(h.actors[s].stage)
    ensures h.actors[s].key.Some? && NameOf(h, s) == u
  {
    assert Present(h, h.registry[u]);
  }

  lemma OwnStageFits(h: Hub, ev: Event, o: nat, m: Mark)
    requires RegistryOk(h) && ItersOk(h) && Enabled(h, ev)
    requires !ev.Spawn? && !ev.MakeKey? && !ev.Insert? && !ev.Visit? && !ev.Remove?
    requires Holding(h.actors[ev.s].stage) && h.actors[ev.s].claim.Some? && Present(h, o)
    requires StageFits(h.actors[ev.s].stage, o, h.actors[ev.s].claim.value, m)
    ensures StageFits(Next(h, ev).actors[ev.s].stage, o, h.actors[ev.s].claim.value, m)
  {
    if ev.EndCast? {
      assert IterOk(h, ev.s, h.actors[ev.s].stage.it);
    }
  }

  lemma RemoveMarks(h: Hub, s: Sid, o: nat, u: Str, m: Mark)
    requires RegistryOk(h) && Enabled(h, Remove(s)) && MarkFits(h, o, u, m)
    ensures MarkFits(Next(h, Remove(s)), o, u, m)
  {
    RemoveFindsOwnEntry(h, s);
    if HolderOf(h, u).Some? { HolderIs(h, u, HolderOf(h, u).value); }
  }

  lemma FreshMarks(h: Hub, ev: Event, o: nat, u: Str, m: Mark)
    requires RegistryOk(h) && Enabled(h, ev) && MarkFits(h, o, u, m)
    requires ev.Spawn? || ev.MakeKey? || (ev.Insert? && NameOf(h, ev.s) in h.registry)
    ensures MarkFits(Next(h, ev), o, u, m)
  {
    if HolderOf(h, u).Some? { HolderIs(h, u, HolderOf(h, u).value); }
  }

  lemma NonVisitPresence(h: Hub, ev: Event)
    requires RegistryOk(h) && ItersOk(h) && PresenceOk(h) && Enabled(h, ev)
    requires !ev.Visit? && !(ev.Insert? && NameOf(h, ev.s) !in h.registry)
    ensures PresenceOk(Next(h, ev))
  {
    var k := Next(h, ev);
    assert k.claims == h.claims;
    hide Next, RegistryOk, ItersOk, MarkFits, ToldAbout;
    forall o: nat, u: Str | Watches(k, o, u) ensures MarkFits(k, o, u, ToldAbout(k, o, u)) {
      WatchesBefore(h, ev, o, u);
      var m := ToldAbout(h, o, u);
      if ev.Remove? {
        RemoveMarks(h, ev.s, o, u, m);
      } else if ev.Spawn? || ev.MakeKey? || ev.Insert? {
        FreshMarks(h, ev, o, u, m);
      } else {
        OwnStepMarks(h, ev, o, u, m);
      }
    }
  }

  // ----- visits -----

  lemma VisitPresence(h: Hub, k: Hub, s: Sid, i: nat)
    requires RegistryOk(h) && ItersOk(h) && PubsOk(h) && PresenceOk(h)
    requires Enabled(h, Visit(s, i)) && VisitEffect(h, k, s, i)
    ensures PresenceOk(k)
  {
    forall o: nat, u: Str | Watches(k, o, u) ensures MarkFits(k, o, u, ToldAbout(k, o, u)) {
      VisitWatches(h, k, s, i, o, u);
      if o == i {
        VisitedMark(h, k, s, i, u);
      } else {
        UnvisitedMark(h, k, s, i, o, u);
      }
    }
  }

  lemma VisitWatches(h: Hub, k: Hub, s: Sid, i: nat, o: nat, u: Str)
    requires RegistryOk(h) && Enabled(h, Visit(s, i)) && VisitEffect(h, k, s, i) && Watches(k, o, u)
    ensures Watches(h, o, u)
  {
    assert Present(h, o);
  }

  lemma UnvisitedMark(h: Hub, k: Hub, s: Sid, i: nat, o: nat, u: Str)
    requires RegistryOk(h) && Enabled(h, Visit(s, i)) && VisitEffect(h, k, s, i)
    requires o != i && Watches(h, o, u) && MarkFits(h, o, u, ToldAbout(h, o, u))
    ensures MarkFits(k, o, u, ToldAbout(k, o, u))
  {
    hide RegistryOk, Offer, Lossless, LastMark, StageFits;
    DifferentOwners(h, o, i);
    SeenStageFits(h, s, i, o, u);
  }

  lemma DifferentOwners(h: Hub, o: nat, i: nat)
    requires RegistryOk(h) && o < |h.claims| && i < |h.claims| && o != i
    ensures h.claims[o].addr != h.claims[i].addr
  {
    assert h.actors[h.claims[o].addr].claim == Some(o);
    assert h.actors[h.claims[i].addr].claim == Some(i);
  }

  lemma SeenStageFits(h: Hub, s: Sid, i: nat, o: nat, u: Str)
    requires At(h, s) && Casting(h.actors[s].stage) && o != i
    ensures forall j: nat, m: Mark :: StageFits(h.actors[s].stage, o, j, m) ==>
              StageFits(MarkSeen(h.actors[s].stage, i), o, j, m)
  {
  }

  lemma VisitedMark(h: Hub, k: Hub, s: Sid, i: nat, u: Str)
    requires RegistryOk(h) && ItersOk(h) && PubsOk(h) && Enabled(h, Visit(s, i)) && VisitEffect(h, k, s, i)
    requires Watches(h, i, u) && Watches(k, i, u) && MarkFits(h, i, u, ToldAbout(h, i, u))
    ensures MarkFits(k, i, u, ToldAbout(k, i, u))
  {
    if h.claims[i].addr == s {
      OwnVisitMark(h, k, s, i, u);
    } else {
      DeliveredMark(h, k, s, i, u);
      hide RegistryOk, PubsOk, VisitEffect, ToldAbout, MarkFits, Enabled;
      if HolderOf(h, u) == Some(s) {
        SenderMark(h, k, s, i, u, ToldAbout(h, i, u));
      } else {
        BystanderMark(h, k, s, i, u, ToldAbout(h, i, u));
      }
    }
  }

  /** A frame that is not dropped is the last thing the entry's owner has been told. */
  lemma DeliveredMark(h: Hub, k: Hub, s: Sid, i: nat, u: Str)
    requires Enabled(h, Visit(s, i)) && VisitEffect(h, k, s, i) && h.claims[i].addr != s
    requires Watches(k, i, u)
    ensures ToldAbout(k, i, u) == Told(ToldAbout(h, i, u), h.pubs[h.actors[s].stage.it.pub].frame, u)
  {
    var t, it := h.claims[i].addr, h.actors[s].stage.it;
    var x := Item(it.pub, h.pubs[it.pub].frame);
    assert k.actors[t].mail.enq == h.actors[t].mail.enq + [x];
    LastMarkPush(h.actors[t].mail.enq, x, u);
  }

  lemma SenderMark(h: Hub, k: Hub, s: Sid, i: nat, u: Str, m: Mark)
    requires RegistryOk(h) && ItersOk(h) && PubsOk(h) && Enabled(h, Visit(s, i)) && VisitEffect(h, k, s, i)
    requires HolderOf(h, u) == Some(s) && MarkFits(h, i, u, m)
    ensures MarkFits(k, i, u, Told(m, h.pubs[h.actors[s].stage.it.pub].frame, u))
  {
    hide RegistryOk, ItersOk, PubsOk, Offer, Present;
    SenderKnown(h, s, u);
  }

  lemma SenderKnown(h: Hub, s: Sid, u: Str)
    requires RegistryOk(h) && ItersOk(h) && PubsOk(h) && At(h, s) && Casting(h.actors[s].stage)
    requires HolderOf(h, u) == Some(s)
    ensures var it := h.actors[s].stage.it;
            && it.pub < |h.pubs| && h.actors[s].stage == Casts(it, h.pubs[it.pub].frame)
            && About(h.pubs[it.pub].frame) == Some(u)
            && IterOk(h, s, it) && h.actors[s].claim == Some(h.registry[u])
  {
    var it := h.actors[s].stage.it;
    assert IterOk(h, s, it) && PubOk(h, h.pubs[it.pub]);
    HolderIs(h, u, s);
  }

  lemma BystanderMark(h: Hub, k: Hub, s: Sid, i: nat, u: Str, m: Mark)
    requires RegistryOk(h) && ItersOk(h) && PubsOk(h) && Enabled(h, Visit(s, i)) && VisitEffect(h, k, s, i)
    requires HolderOf(h, u) != Some(s) && MarkFits(h, i, u, m)
    ensures MarkFits(k, i, u, Told(m, h.pubs[h.actors[s].stage.it.pub].frame, u))
  {
    hide RegistryOk, ItersOk, PubsOk, Offer, Present, About;
    NotAbout(h, s, u, m);
  }

  /** A broadcast is never about a name its sender does not hold. */
  lemma NotAbout(h: Hub, s: Sid, u: Str, m: Mark)
    requires RegistryOk(h) && ItersOk(h) && PubsOk(h) && At(h, s) && Casting(h.actors[s].stage)
    requires HolderOf(h, u) != Some(s)
    ensures var it := h.actors[s].stage.it; it.pub < |h.pubs| && Told(m, h.pubs[it.pub].frame, u) == m
  {
    var it := h.actors[s].stage.it;
    assert IterOk(h, s, it) && PubOk(h, h.pubs[it.pub]);
    HolderFound(h, s);
    hide RegistryOk, ItersOk, PubsOk;
    assert NameOf(h, s) != u;
  }

  lemma LastMarkPush(enq: seq<Item>, x: Item, u: Str)
    ensures LastMark(enq + [x], u) == Told(LastMark(enq, u), x.frame, u)
  {
    assert (enq + [x])[..|enq|] == enq;
  }

  /** The sender passes over its own entry; it is told nothing, and watches only other names. */
  lemma OwnVisitMark(h: Hub, k: Hub, s: Sid, i: nat, u: Str)
    requires RegistryOk(h) && Enabled(h, Visit(s, i)) && VisitEffect(h, k, s, i) && h.claims[i].addr == s
    requires Watches(h, i, u) && MarkFits(h, i, u, ToldAbout(h, i, u))
    ensures MarkFits(k, i, u, ToldAbout(k, i, u))
  {
    hide Offer;
    if HolderOf(h, u).Some? { HolderIs(h, u, HolderOf(h, u).value); }
    assert h.actors[s].key == Some(h.claims[i].key);
  }

  lemma PresenceStep(h: Hub, ev: Event)
    requires RegistryOk(h) && CastsOk(h) && PresenceOk(h) && Enabled(h, ev)
    ensures PresenceOk(Next(h, ev))
  {
    hide Next, RegistryOk, PresenceOk, VisitEffect, ItersOk, PubsOk;
    if ev.Visit? {
      VisitDoes(h, ev.s, ev.i);
      VisitPresence(h, Next(h, ev), ev.s, ev.i);
    } else if ev.Insert? && NameOf(h, ev.s) !in h.registry {
      InsertPresence(h, ev.s);
    } else {
      NonVisitPresence(h, ev);
    }
  }
}
