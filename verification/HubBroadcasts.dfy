/** What is broadcast and what reaches which mailbox, in every interleaving. */
module HubBroadcasts {
  import opened Wrappers
  import opened Frames
  import opened HubMachine
  import opened HubRegistry

  // ----- invariants -----

  /** A broadcast in progress: which publication it carries, and which entries it has seen. */
  predicate IterOk(h: Hub, s: Sid, it: Iter)
    requires At(h, s)
  {
    && it.pub < |h.pubs| && h.pubs[it.pub].sid == s
    && h.actors[s].stage == Casts(it, h.pubs[it.pub].frame)
    && it.from <= |h.claims|
    && h.actors[s].claim.Some? && h.actors[s].claim.value < it.from
    && (forall i :: i in it.start ==> i < it.from)
    && (forall i :: i in it.seen ==> Eligible(h, it, i))
    && (forall i: nat :: i < it.from && Present(h, i) ==> i in it.start)
  }

  predicate ItersOk(h: Hub) {
    forall s :: 0 <= s < |h.actors| && Casting(h.actors[s].stage) ==> IterOk(h, s, h.actors[s].stage.it)
  }

  /** Every broadcast is about its publisher, who held that name when it began. */
  predicate PubOk(h: Hub, p: Pub) {
    && At(h, p.sid) && h.actors[p.sid].key.Some?
    && About(p.frame) == Some(NameOf(h, p.sid))
    && p.holder == Some(p.sid)
  }

  predicate PubsOk(h: Hub) { forall p :: 0 <= p < |h.pubs| ==> PubOk(h, h.pubs[p]) }

  /** While a session is broadcasting nobody has begun a later broadcast about the same name. */
  predicate LatestOk(h: Hub) {
    forall s, p :: 0 <= s < |h.actors| && Casting(h.actors[s].stage) && h.actors[s].stage.it.pub < p < |h.pubs|
      ==> About(h.pubs[p].frame) != About(h.pubs[h.actors[s].stage.it.pub].frame)
  }

  /** The session is broadcasting publication `p` and has not yet reached the entry of `t`. */
  predicate Unreached(h: Hub, s: Sid, p: nat, t: Sid)
    requires At(h, s) && At(h, t)
  {
    && Casting(h.actors[s].stage) && h.actors[s].stage.it.pub == p
    && !(h.actors[t].claim.Some? && h.actors[t].claim.value in h.actors[s].stage.it.seen)
  }

  /** A queued frame belongs to another session's broadcast that has passed this entry. */
  predicate ItemOk(h: Hub, t: Sid, x: Item)
    requires At(h, t)
  {
    && x.pub < |h.pubs| && x.frame == h.pubs[x.pub].frame
    && At(h, h.pubs[x.pub].sid) && h.pubs[x.pub].sid != t
    && !Unreached(h, h.pubs[x.pub].sid, x.pub, t)
  }

  predicate ItemsOk(h: Hub) {
    forall t, k :: 0 <= t < |h.actors| && 0 <= k < |h.actors[t].mail.enq| ==> ItemOk(h, t, h.actors[t].mail.enq[k])
  }

  /** Frames about one name are queued in the order in which they were broadcast. */
  predicate InPubOrder(enq: seq<Item>) {
    forall j, k :: 0 <= j < k < |enq| && About(enq[j].frame) == About(enq[k].frame) ==> enq[j].pub < enq[k].pub
  }

  predicate OrderOk(h: Hub) { forall t :: 0 <= t < |h.actors| ==> InPubOrder(h.actors[t].mail.enq) }

  predicate CastsOk(h: Hub) { ItersOk(h) && PubsOk(h) && LatestOk(h) && ItemsOk(h) && OrderOk(h) }

  // ----- holders of one name -----

  /** A name has at most one holder. */
  lemma OneHolder(h: Hub, s: Sid, t: Sid)
    requires RegistryOk(h) && At(h, s) && At(h, t)
    requires Holding(h.actors[s].stage) && Holding(h.actors[t].stage) && NameOf(h, s) == NameOf(h, t)
    ensures s == t
  {
    assert Present(h, h.actors[s].claim.value) && Present(h, h.actors[t].claim.value);
  }

  /** A holder's entry is the one the registry finds under its name. */
  lemma HolderFound(h: Hub, s: Sid)
    requires RegistryOk(h) && At(h, s) && Holding(h.actors[s].stage)
    ensures h.actors[s].key.Some? && h.actors[s].claim.Some?
    ensures NameOf(h, s) in h.registry && h.registry[NameOf(h, s)] == h.actors[s].claim.value < |h.claims|
    ensures h.claims[h.actors[s].claim.value] == Entry(h.actors[s].key.value, s)
    ensures HolderOf(h, NameOf(h, s)) == Some(s)
  {
    assert Present(h, h.actors[s].claim.value);
  }

  /** The pointer comparison singles out exactly the sender: an entry's key is the sender's
      allocation if and only if the entry is the sender's own. */
  lemma PointerFilterIsExact(h: Hub, s: Sid, i: nat)
    requires RegistryOk(h) && Enabled(h, Visit(s, i))
    ensures SamePointer(h, s, i) <==> h.claims[i].addr == s
    ensures SamePointer(h, s, i) <==> h.actors[s].claim == Some(i)
    ensures Present(h, i) ==> (SamePointer(h, s, i) <==> h.claims[i].key.name == NameOf(h, s))
  {
    var t := h.claims[i].addr;
    assert h.actors[t].key == Some(h.claims[i].key) && h.actors[t].claim == Some(i);
    HolderFound(h, s);
  }

  // ----- steps that neither begin a broadcast nor queue a frame -----

  predicate Calm(a: Actor, b: Actor) {
    && b.mail.enq == a.mail.enq
    && (a.key.Some? ==> b.key == a.key)
    && (a.claim.Some? ==> b.claim == a.claim)
    && (Casting(b.stage) ==> b.stage == a.stage && b.claim == a.claim)
  }

  predicate QuietStep(h: Hub, k: Hub) {
    && k.pubs == h.pubs && |k.actors| >= |h.actors|
    && (forall s :: 0 <= s < |h.actors| ==> Calm(h.actors[s], k.actors[s]))
    && (forall s :: |h.actors| <= s < |k.actors| ==> k.actors[s] == NEWCOMER)
  }

  predicate IsQuiet(ev: Event) { !ev.Publish? && !ev.Visit? }

  lemma QuietSteps(h: Hub, ev: Event)
    requires KeysOk(h) && Enabled(h, ev) && IsQuiet(ev)
    ensures QuietStep(h, Next(h, ev))
  {
    hide Next, Enabled;
    if ev.Spawn? {
      SpawnIsQuiet(h);
    } else {
      OwnQuietStep(h, ev);
    }
  }

  lemma SpawnIsQuiet(h: Hub)
    ensures QuietStep(h, Next(h, Spawn))
  {
  }

  lemma OwnQuietStep(h: Hub, ev: Event)
    requires KeysOk(h) && Enabled(h, ev) && IsQuiet(ev) && !ev.Spawn?
    ensures var k := Next(h, ev);
            && At(h, ev.s) && k.pubs == h.pubs && k.actors == h.actors[ev.s := k.actors[ev.s]]
            && Calm(h.actors[ev.s], k.actors[ev.s])
  {
    hide PublishStep, VisitStep, Offer, MarkSeen, Finished, PresentClaims;
    if ev.MakeKey? { assert h.actors[ev.s] == NEWCOMER; }
  }

  lemma QuietKeepsPubs(h: Hub, k: Hub)
    requires QuietStep(h, k) && PubsOk(h) && LatestOk(h) && OrderOk(h)
    ensures PubsOk(k) && LatestOk(k) && OrderOk(k)
  {
  }

  lemma QuietKeepsItems(h: Hub, k: Hub)
    requires QuietStep(h, k) && ItemsOk(h)
    ensures ItemsOk(k)
  {
    forall t, j | 0 <= t < |k.actors| && 0 <= j < |k.actors[t].mail.enq|
      ensures ItemOk(k, t, k.actors[t].mail.enq[j])
    {
      assert ItemOk(h, t, h.actors[t].mail.enq[j]);
    }
  }

  /** The map may change under a broadcast: it loses entries, and gains only entries newer than
      the broadcast. */
  predicate MapDrifts(h: Hub, k: Hub) {
    && h.claims <= k.claims
    && forall i: nat :: i < |h.claims| && Present(k, i) ==> Present(h, i)
  }

  lemma QuietKeepsIters(h: Hub, k: Hub)
    requires QuietStep(h, k) && MapDrifts(h, k) && ItersOk(h)
    ensures ItersOk(k)
  {
    forall s | 0 <= s < |k.actors| && Casting(k.actors[s].stage)
      ensures IterOk(k, s, k.actors[s].stage.it)
    {
      assert IterOk(h, s, h.actors[s].stage.it);
    }
  }

  lemma StepsDrift(h: Hub, ev: Event)
    requires RegistryOk(h) && Enabled(h, ev)
    ensures MapDrifts(h, Next(h, ev))
  {
    if ev.Remove? { RemoveFindsOwnEntry(h, ev.s); }
  }

  lemma QuietCasts(h: Hub, ev: Event)
    requires RegistryOk(h) && CastsOk(h) && Enabled(h, ev) && IsQuiet(ev)
    ensures CastsOk(Next(h, ev))
  {
    hide Next, QuietStep, ItersOk, PubsOk, LatestOk, ItemsOk, OrderOk, MapDrifts;
    QuietSteps(h, ev);
    StepsDrift(h, ev);
    QuietKeepsPubs(h, Next(h, ev));
    QuietKeepsItems(h, Next(h, ev));
    QuietKeepsIters(h, Next(h, ev));
  }

  // ----- beginning a broadcast -----

  lemma PublishPubs(h: Hub, s: Sid, frame: ServerFrame, cause: nat, at: real)
    requires RegistryOk(h) && PubsOk(h) && Enabled(h, Publish(s, frame, cause, at))
    ensures PubsOk(Next(h, Publish(s, frame, cause, at)))
  {
    HolderFound(h, s);
    var k := Next(h, Publish(s, frame, cause, at));
    forall p | 0 <= p < |k.pubs| ensures PubOk(k, k.pubs[p]) {
      if p < |h.pubs| { assert PubOk(h, h.pubs[p]); }
    }
  }

  lemma PublishIters(h: Hub, s: Sid, frame: ServerFrame, cause: nat, at: real)
    requires RegistryOk(h) && ItersOk(h) && Enabled(h, Publish(s, frame, cause, at))
    ensures ItersOk(Next(h, Publish(s, frame, cause, at)))
  {
    HolderFound(h, s);
    var k := Next(h, Publish(s, frame, cause, at));
    forall t | 0 <= t < |k.actors| && Casting(k.actors[t].stage)
      ensures IterOk(k, t, k.actors[t].stage.it)
    {
      if t != s { assert IterOk(h, t, h.actors[t].stage.it); }
    }
  }

  lemma PublishLatest(h: Hub, s: Sid, frame: ServerFrame, cause: nat, at: real)
    requires RegistryOk(h) && ItersOk(h) && PubsOk(h) && LatestOk(h) && Enabled(h, Publish(s, frame, cause, at))
    ensures LatestOk(Next(h, Publish(s, frame, cause, at)))
  {
    var k := Next(h, Publish(s, frame, cause, at));
    forall t, p | 0 <= t < |k.actors| && Casting(k.actors[t].stage) && k.actors[t].stage.it.pub < p < |k.pubs|
      ensures About(k.pubs[p].frame) != About(k.pubs[k.actors[t].stage.it.pub].frame)
    {
      assert t != s && IterOk(h, t, h.actors[t].stage.it);
      assert PubOk(h, h.pubs[h.actors[t].stage.it.pub]);
      if p == |h.pubs| && NameOf(h, s) == NameOf(h, t) {
        OneHolder(h, s, t);
      }
    }
  }

  lemma PublishItems(h: Hub, s: Sid, frame: ServerFrame, cause: nat, at: real)
    requires ItemsOk(h) && OrderOk(h) && Enabled(h, Publish(s, frame, cause, at))
    ensures ItemsOk(Next(h, Publish(s, frame, cause, at))) && OrderOk(Next(h, Publish(s, frame, cause, at)))
  {
    var k := Next(h, Publish(s, frame, cause, at));
    forall t, j | 0 <= t < |k.actors| && 0 <= j < |k.actors[t].mail.enq|
      ensures ItemOk(k, t, k.actors[t].mail.enq[j])
    {
      assert ItemOk(h, t, h.actors[t].mail.enq[j]);
    }
  }

  lemma PublishCasts(h: Hub, s: Sid, frame: ServerFrame, cause: nat, at: real)
    requires RegistryOk(h) && CastsOk(h) && Enabled(h, Publish(s, frame, cause, at))
    ensures CastsOk(Next(h, Publish(s, frame, cause, at)))
  {
    hide Next, ItersOk, PubsOk, LatestOk, ItemsOk, OrderOk, RegistryOk;
    PublishPubs(h, s, frame, cause, at);
    PublishIters(h, s, frame, cause, at);
    PublishLatest(h, s, frame, cause, at);
    PublishItems(h, s, frame, cause, at);
  }

  // ----- visiting an entry -----

  /** What a visit does: marks the entry seen, and may queue one frame for its owner. */
  predicate VisitEffect(h: Hub, k: Hub, s: Sid, i: nat)
    requires At(h, s) && Casting(h.actors[s].stage) && i < |h.claims|
  {
    var t, it := h.claims[i].addr, h.actors[s].stage.it;
    && k.pubs == h.pubs && k.claims == h.claims && k.registry == h.registry && |k.actors| == |h.actors|
    && At(h, t) && it.pub < |h.pubs|
    && k.actors[s].stage == MarkSeen(h.actors[s].stage, i)
    && (forall r :: 0 <= r < |h.actors| ==>
          k.actors[r].key == h.actors[r].key && k.actors[r].claim == h.actors[r].claim)
    && (forall r :: 0 <= r < |h.actors| && r != s ==> k.actors[r].stage == h.actors[r].stage)
    && (forall r :: 0 <= r < |h.actors| && r != t ==> k.actors[r].mail == h.actors[r].mail)
    && k.actors[t].mail
       == if t == s then h.actors[t].mail else Offer(h.actors[t].mail, Item(it.pub, h.pubs[it.pub].frame))
  }

  lemma VisitDoes(h: Hub, s: Sid, i: nat)
    requires RegistryOk(h) && Enabled(h, Visit(s, i))
    ensures VisitEffect(h, Next(h, Visit(s, i)), s, i)
  {
    PointerFilterIsExact(h, s, i);
    hide RegistryOk, Offer;
  }

  lemma VisitPubs(h: Hub, k: Hub, s: Sid, i: nat)
    requires ItersOk(h) && PubsOk(h) && LatestOk(h) && Enabled(h, Visit(s, i)) && VisitEffect(h, k, s, i)
    ensures ItersOk(k) && PubsOk(k) && LatestOk(k)
  {
    hide Offer;
    forall t | 0 <= t < |k.actors| && Casting(k.actors[t].stage)
      ensures IterOk(k, t, k.actors[t].stage.it)
    {
      assert IterOk(h, t, h.actors[t].stage.it);
      assert forall j: nat :: Present(h, j) <==> Present(k, j);
    }
  }

  lemma VisitItems(h: Hub, k: Hub, s: Sid, i: nat)
    requires RegistryOk(h) && ItersOk(h) && ItemsOk(h) && Enabled(h, Visit(s, i)) && VisitEffect(h, k, s, i)
    ensures ItemsOk(k)
  {
    hide RegistryOk, ItersOk;
    VisitorKnown(h, s, i);
    forall t, j | 0 <= t < |k.actors| && 0 <= j < |k.actors[t].mail.enq|
      ensures ItemOk(k, t, k.actors[t].mail.enq[j])
    {
      if j < |h.actors[t].mail.enq| { assert ItemOk(h, t, h.actors[t].mail.enq[j]); }
    }
  }

  lemma VisitorKnown(h: Hub, s: Sid, i: nat)
    requires RegistryOk(h) && ItersOk(h) && Enabled(h, Visit(s, i))
    ensures h.actors[s].stage.it.pub < |h.pubs| && h.pubs[h.actors[s].stage.it.pub].sid == s
    ensures h.actors[h.claims[i].addr].claim == Some(i)
  {
    assert IterOk(h, s, h.actors[s].stage.it);
  }

  /** What is queued about the same user at an entry about to be visited was broadcast earlier. */
  lemma QueuedEarlier(h: Hub, s: Sid, i: nat)
    requires RegistryOk(h) && ItersOk(h) && LatestOk(h) && ItemsOk(h) && Enabled(h, Visit(s, i))
    ensures var enq, it := h.actors[h.claims[i].addr].mail.enq, h.actors[s].stage.it;
            forall j :: 0 <= j < |enq| && About(enq[j].frame) == About(h.pubs[it.pub].frame) ==> enq[j].pub < it.pub
  {
    assert IterOk(h, s, h.actors[s].stage.it);
    var t, it := h.claims[i].addr, h.actors[s].stage.it;
    assert h.actors[t].claim == Some(i);
    forall j | 0 <= j < |h.actors[t].mail.enq| && About(h.actors[t].mail.enq[j].frame) == About(h.pubs[it.pub].frame)
      ensures h.actors[t].mail.enq[j].pub < it.pub
    {
      assert ItemOk(h, t, h.actors[t].mail.enq[j]);
    }
  }

  lemma VisitOrder(h: Hub, k: Hub, s: Sid, i: nat)
    requires RegistryOk(h) && ItersOk(h) && LatestOk(h) && ItemsOk(h) && OrderOk(h)
    requires Enabled(h, Visit(s, i)) && VisitEffect(h, k, s, i)
    ensures OrderOk(k)
  {
    hide RegistryOk, ItersOk, LatestOk, ItemsOk;
    QueuedEarlier(h, s, i);
    var t := h.claims[i].addr;
    assert InPubOrder(h.actors[t].mail.enq);
    forall r | 0 <= r < |k.actors| ensures InPubOrder(k.actors[r].mail.enq) {
      assert InPubOrder(h.actors[r].mail.enq);
    }
  }

  lemma VisitCasts(h: Hub, s: Sid, i: nat)
    requires RegistryOk(h) && CastsOk(h) && Enabled(h, Visit(s, i))
    ensures CastsOk(Next(h, Visit(s, i)))
  {
    hide Next, ItersOk, PubsOk, LatestOk, ItemsOk, OrderOk, RegistryOk, VisitEffect;
    var k := Next(h, Visit(s, i));
    VisitDoes(h, s, i);
    VisitPubs(h, k, s, i);
    VisitItems(h, k, s, i);
    VisitOrder(h, k, s, i);
  }

  lemma CastsStep(h: Hub, ev: Event)
    requires RegistryOk(h) && CastsOk(h) && Enabled(h, ev)
    ensures CastsOk(Next(h, ev))
  {
    hide Next, CastsOk, RegistryOk;
    if ev.Publish? {
      PublishCasts(h, ev.s, ev.frame, ev.cause, ev.at);
    } else if ev.Visit? {
      VisitCasts(h, ev.s, ev.i);
    } else {
      QuietCasts(h, ev);
    }
  }
}
