/** A broadcast leaves out nobody, in every interleaving: whoever it visits gets its frame once, or
    loses it once to a mailbox that is full or closed at that moment. */
module HubDelivery {
  import opened Wrappers
  import opened HubMachine
  import opened HubRegistry
  import opened HubBroadcasts

  function PubsIn(items: seq<Item>): seq<nat> { seq(|items|, i requires 0 <= i < |items| => items[i].pub) }

  /** How often broadcast `p` has been queued in the mailbox or lost to it. */
  function Tally(m: Mailbox, p: nat): nat { multiset(PubsIn(m.enq))[p] + multiset(m.lost)[p] }

  /** No broadcast meets a mailbox twice, its publisher's never, and no mailbox before it is visited. */
  predicate TallyOk(h: Hub, t: Sid, p: nat)
    requires At(h, t)
  {
    && Tally(h.actors[t].mail, p) <= 1
    && (p >= |h.pubs| ==> Tally(h.actors[t].mail, p) == 0)
    && (p < |h.pubs| && At(h, h.pubs[p].sid) && (h.pubs[p].sid == t || Unreached(h, h.pubs[p].sid, p, t)) ==>
          Tally(h.actors[t].mail, p) == 0)
  }

  /** Broadcast `p` of `s` has met the mailbox of the owner of entry `i`, unless that is its own. */
  predicate Served(h: Hub, s: Sid, i: nat, p: nat) {
    && i < |h.claims| && At(h, h.claims[i].addr)
    && (h.claims[i].addr != s ==> Tally(h.actors[h.claims[i].addr].mail, p) == 1)
  }

  /** Every loss is on the list. */
  predicate LossesOk(h: Hub) {
    forall t :: 0 <= t < |h.actors| ==> |h.actors[t].mail.lost| == h.actors[t].mail.full + h.actors[t].mail.closed
  }

  ghost predicate DeliveredOk(h: Hub) {
    && LossesOk(h)
    && (forall t, p: nat :: 0 <= t < |h.actors| ==> TallyOk(h, t, p))
    && (forall s, i :: 0 <= s < |h.actors| && Casting(h.actors[s].stage) && i in h.actors[s].stage.it.seen
          ==> Served(h, s, i, h.actors[s].stage.it.pub))
  }

  // ----- steps that queue nothing -----

  predicate BoxesKept(h: Hub, k: Hub) {
    && |k.actors| >= |h.actors|
    && (forall t :: 0 <= t < |h.actors| ==>
          && k.actors[t].mail.enq == h.actors[t].mail.enq && k.actors[t].mail.lost == h.actors[t].mail.lost
          && k.actors[t].mail.full == h.actors[t].mail.full && k.actors[t].mail.closed == h.actors[t].mail.closed)
    && (forall t :: |h.actors| <= t < |k.actors| ==> k.actors[t] == NEWCOMER)
  }

  /** A broadcast of the later state is one of the earlier state, or is new and has seen nothing;
      and no entry changes its owner. */
  predicate CastsKept(h: Hub, k: Hub) {
    && h.pubs <= k.pubs && h.claims <= k.claims && |k.actors| >= |h.actors|
    && (forall s :: 0 <= s < |k.actors| && Casting(k.actors[s].stage) ==>
          s < |h.actors|
          && (k.actors[s].stage == h.actors[s].stage
              || (k.actors[s].stage.it.seen == {} && k.actors[s].stage.it.pub == |h.pubs|)))
    && (forall s :: 0 <= s < |h.actors| && h.actors[s].claim.Some? ==> k.actors[s].claim == h.actors[s].claim)
  }

  lemma NonVisitsKeepBoxes(h: Hub, ev: Event)
    requires KeysOk(h) && Enabled(h, ev) && !ev.Visit?
    ensures BoxesKept(h, Next(h, ev))
  {
    hide PresentClaims, Finished, HolderOf;
  }

  lemma NonVisitsKeepCasts(h: Hub, ev: Event)
    requires RegistryOk(h) && Enabled(h, ev) && !ev.Visit?
    ensures CastsKept(h, Next(h, ev))
  {
    hide ClaimsOk, MapOk, QuietStep;
    if IsQuiet(ev) {
      QuietSteps(h, ev);
      StepsDrift(h, ev);
      QuietCastsKept(h, Next(h, ev));
    } else {
      PublishKeepsCasts(h, ev);
    }
  }

  lemma QuietCastsKept(h: Hub, k: Hub)
    requires QuietStep(h, k) && MapDrifts(h, k)
    ensures CastsKept(h, k)
  {
  }

  lemma PublishKeepsCasts(h: Hub, ev: Event)
    requires Enabled(h, ev) && ev.Publish?
    ensures CastsKept(h, Next(h, ev))
  {
    hide PresentClaims, HolderOf;
  }

  lemma TallyStays(h: Hub, k: Hub, t: Sid, p: nat)
    requires BoxesKept(h, k) && CastsKept(h, k) && At(h, t) && TallyOk(h, t, p)
    requires p < |h.pubs| ==> At(h, h.pubs[p].sid)
    requires p >= |h.pubs| ==> Tally(h.actors[t].mail, p) == 0
    ensures TallyOk(k, t, p)
  {
    hide Tally;
    SameTally(h.actors[t].mail, k.actors[t].mail, p);
  }

  lemma SameTally(m: Mailbox, q: Mailbox, p: nat)
    requires m.enq == q.enq && m.lost == q.lost
    ensures Tally(m, p) == Tally(q, p)
  {
  }

  lemma NoTally(p: nat)
    ensures Tally(EMPTY_MAILBOX, p) == 0
  {
  }

  lemma ServedStays(h: Hub, k: Hub, s: Sid, i: nat, p: nat)
    requires Served(h, s, i, p) && h.claims <= k.claims && BoxesKept(h, k)
    ensures Served(k, s, i, p)
  {
    hide Tally;
    SameTally(h.actors[h.claims[i].addr].mail, k.actors[h.claims[i].addr].mail, p);
  }

  lemma NonVisitDelivers(h: Hub, ev: Event)
    requires RegistryOk(h) && DeliveredOk(h) && PubsOk(h) && Enabled(h, ev) && !ev.Visit?
    ensures DeliveredOk(Next(h, ev))
  {
    hide Next, Enabled, Served, Tally, TallyOk, RegistryOk, BoxesKept, CastsKept, LossesOk;
    var k := Next(h, ev);
    KeysToo(h);
    NonVisitsKeepCasts(h, ev);
    NonVisitsKeepBoxes(h, ev);
    LossesKept(h, k);
    forall t, p: nat | 0 <= t < |k.actors| ensures TallyOk(k, t, p) {
      TallyThere(h, k, t, p);
    }
    forall s, i | 0 <= s < |k.actors| && Casting(k.actors[s].stage) && i in k.actors[s].stage.it.seen
      ensures Served(k, s, i, k.actors[s].stage.it.pub)
    {
      SeenBefore(h, k, s, i);
      ServedStays(h, k, s, i, k.actors[s].stage.it.pub);
    }
  }

  lemma LossesKept(h: Hub, k: Hub)
    requires LossesOk(h) && BoxesKept(h, k)
    ensures LossesOk(k)
  {
  }

  lemma VisitLoses(h: Hub, k: Hub, s: Sid, i: nat)
    requires LossesOk(h) && At(h, s) && Casting(h.actors[s].stage) && i < |h.claims| && VisitEffect(h, k, s, i)
    ensures LossesOk(k)
  {
  }

  lemma KeysToo(h: Hub)
    requires RegistryOk(h)
    ensures KeysOk(h)
  {
  }

  lemma SeenBefore(h: Hub, k: Hub, s: Sid, i: nat)
    requires CastsKept(h, k) && At(k, s) && Casting(k.actors[s].stage) && i in k.actors[s].stage.it.seen
    ensures At(h, s) && h.actors[s].stage == k.actors[s].stage && h.claims <= k.claims
  {
  }

  lemma TallyThere(h: Hub, k: Hub, t: Sid, p: nat)
    requires DeliveredOk(h) && PubsOk(h) && BoxesKept(h, k) && CastsKept(h, k) && At(k, t)
    ensures TallyOk(k, t, p)
  {
    hide Tally;
    if t < |h.actors| {
      assert TallyOk(h, t, p);
      assert p < |h.pubs| ==> PubOk(h, h.pubs[p]);
      TallyStays(h, k, t, p);
    } else {
      NoTally(p);
    }
  }

  // ----- visiting an entry -----

  lemma OfferTallies(m: Mailbox, x: Item, p: nat)
    ensures Tally(Offer(m, x), p) == Tally(m, p) + (if p == x.pub then 1 else 0)
  {
    assert PubsIn(m.enq + [x]) == PubsIn(m.enq) + [x.pub];
  }

  /** The entry about to be visited has not met the broadcast. */
  lemma NotYetMet(h: Hub, s: Sid, i: nat)
    requires RegistryOk(h) && ItersOk(h) && DeliveredOk(h) && Enabled(h, Visit(s, i))
    ensures var t, p := h.claims[i].addr, h.actors[s].stage.it.pub;
            && p < |h.pubs| && h.pubs[p].sid == s && h.actors[t].claim == Some(i)
            && Tally(h.actors[t].mail, p) == 0
  {
    hide Tally;
    assert IterOk(h, s, h.actors[s].stage.it);
    var t, p := h.claims[i].addr, h.actors[s].stage.it.pub;
    assert h.actors[t].claim == Some(i);
    assert TallyOk(h, t, p);
    assert Unreached(h, s, p, t);
  }

  lemma VisitTallies(h: Hub, k: Hub, s: Sid, i: nat, r: Sid, p: nat)
    requires Enabled(h, Visit(s, i)) && VisitEffect(h, k, s, i) && At(h, r) && TallyOk(h, r, p)
    requires var t, q := h.claims[i].addr, h.actors[s].stage.it.pub;
             q < |h.pubs| && h.pubs[q].sid == s && h.actors[t].claim == Some(i) && Tally(h.actors[t].mail, q) == 0
    ensures TallyOk(k, r, p)
  {
    hide Tally, Offer;
    var t, it := h.claims[i].addr, h.actors[s].stage.it;
    OfferTallies(h.actors[t].mail, Item(it.pub, h.pubs[it.pub].frame), p);
  }

  lemma VisitServes(h: Hub, k: Hub, s: Sid, i: nat, r: Sid, o: nat)
    requires ItersOk(h) && Enabled(h, Visit(s, i)) && VisitEffect(h, k, s, i) && At(h, r) && Casting(h.actors[r].stage)
    requires var p := h.actors[r].stage.it.pub; Served(h, r, o, p) || (r == s && o == i)
    requires Tally(h.actors[h.claims[i].addr].mail, h.actors[s].stage.it.pub) == 0
    ensures Served(k, r, o, h.actors[r].stage.it.pub)
  {
    hide Tally, Offer;
    assert IterOk(h, s, h.actors[s].stage.it) && IterOk(h, r, h.actors[r].stage.it);
    var t, it := h.claims[i].addr, h.actors[s].stage.it;
    OfferTallies(h.actors[t].mail, Item(it.pub, h.pubs[it.pub].frame), h.actors[r].stage.it.pub);
  }

  lemma VisitDelivers(h: Hub, k: Hub, s: Sid, i: nat)
    requires RegistryOk(h) && ItersOk(h) && DeliveredOk(h) && Enabled(h, Visit(s, i)) && VisitEffect(h, k, s, i)
    ensures DeliveredOk(k)
  {
    hide Served, Offer, Tally, TallyOk, RegistryOk, ItersOk, LossesOk;
    NotYetMet(h, s, i);
    VisitLoses(h, k, s, i);
    forall t, p: nat | 0 <= t < |k.actors| ensures TallyOk(k, t, p) {
      assert TallyOk(h, t, p);
      VisitTallies(h, k, s, i, t, p);
    }
    forall r, o | 0 <= r < |k.actors| && Casting(k.actors[r].stage) && o in k.actors[r].stage.it.seen
      ensures Served(k, r, o, k.actors[r].stage.it.pub)
    {
      VisitServes(h, k, s, i, r, o);
    }
  }

  lemma DeliveryStep(h: Hub, ev: Event)
    requires RegistryOk(h) && CastsOk(h) && DeliveredOk(h) && Enabled(h, ev)
    ensures DeliveredOk(Next(h, ev))
  {
    hide Next, Enabled, RegistryOk, DeliveredOk, VisitEffect, ItersOk, PubsOk, LatestOk, ItemsOk, OrderOk;
    if ev.Visit? {
      VisitMayRun(h, ev);
      VisitDoes(h, ev.s, ev.i);
      VisitDelivers(h, Next(h, ev), ev.s, ev.i);
    } else {
      NonVisitDelivers(h, ev);
    }
  }

  lemma VisitMayRun(h: Hub, ev: Event)
    requires Enabled(h, ev) && ev.Visit?
    ensures ev == Visit(ev.s, ev.i) && At(h, ev.s) && Casting(h.actors[ev.s].stage) && ev.i < |h.claims|
  {
  }
}
