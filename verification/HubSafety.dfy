/** What holds of the hub after every run from an empty one, whatever the interleaving. */
module HubSafety {
  import opened Wrappers
  import opened Utf8
  import opened HubMachine
  import opened HubRegistry
  import opened HubOccupancy
  import opened HubBroadcasts
  import opened HubTalk
  import opened HubMailboxes
  import opened HubPresence
  import opened HubDelivery

  ghost predicate Inv(h: Hub) {
    && RegistryOk(h) && OccupancyOk(h) && CastsOk(h) && NamesOk(h) && TalksOk(h) && MailsOk(h) && PresenceOk(h)
  }

  lemma InvInit()
    ensures Inv(EMPTY_HUB)
  {
    forall n: Str ensures NameTalk(EMPTY_HUB.pubs, n) == if HeldLive(EMPTY_HUB, n) then Live else Quiet {}
  }

  lemma InvStep(h: Hub, ev: Event)
    requires Inv(h) && Enabled(h, ev)
    ensures Inv(Next(h, ev))
  {
    hide Next, Enabled, RegistryOk, OccupancyOk, CastsOk, NamesOk, TalksOk, MailsOk, PresenceOk;
    RegistryStep(h, ev);
    OccupancyStep(h, ev);
    CastsStep(h, ev);
    TalkStep(h, ev);
    MailStep(h, ev);
    PresenceStep(h, ev);
  }

  lemma {:induction false} Safety(evs: seq<Event>)
    requires ValidRun(EMPTY_HUB, evs)
    ensures Inv(Run(EMPTY_HUB, evs))
    decreases |evs|
  {
    hide Inv, Next, Enabled;
    if evs == [] {
      InvInit();
    } else {
      Safety(evs[..|evs| - 1]);
      InvStep(Run(EMPTY_HUB, evs[..|evs| - 1]), evs[|evs| - 1]);
    }
  }

  /** The states some interleaving leads to. */
  ghost predicate Reachable(h: Hub) { exists evs :: ValidRun(EMPTY_HUB, evs) && Run(EMPTY_HUB, evs) == h }

  lemma ReachableIsSafe(h: Hub)
    requires Reachable(h)
    ensures Inv(h)
  {
    var evs :| ValidRun(EMPTY_HUB, evs) && Run(EMPTY_HUB, evs) == h;
    Safety(evs);
  }

  /** Deliveries are accounted for in every run. */
  lemma {:induction false} DeliverySafety(evs: seq<Event>)
    requires ValidRun(EMPTY_HUB, evs)
    ensures DeliveredOk(Run(EMPTY_HUB, evs))
    decreases |evs|
  {
    hide Next, Enabled, RegistryOk, CastsOk, DeliveredOk, OccupancyOk, NamesOk, TalksOk, MailsOk, PresenceOk;
    if evs == [] {
      NothingToDeliver();
    } else {
      var front := evs[..|evs| - 1];
      DeliverySafety(front);
      Safety(front);
      DeliveryStep(Run(EMPTY_HUB, front), evs[|evs| - 1]);
    }
  }

  lemma NothingToDeliver()
    ensures DeliveredOk(EMPTY_HUB)
  {
  }

  /** The invariant, part by part. */
  lemma ReachableParts(h: Hub)
    requires Reachable(h)
    ensures RegistryOk(h) && OccupancyOk(h) && CastsOk(h) && NamesOk(h) && TalksOk(h) && MailsOk(h) && PresenceOk(h)
    ensures DeliveredOk(h)
  {
    hide RegistryOk, OccupancyOk, CastsOk, NamesOk, TalksOk, MailsOk, PresenceOk, DeliveredOk;
    ReachableIsSafe(h);
    var evs :| ValidRun(EMPTY_HUB, evs) && Run(EMPTY_HUB, evs) == h;
    DeliverySafety(evs);
  }

  // ----- presence -----

  /** Registered, and past its own Joined. */
  predicate InRoom(h: Hub, s: Sid) {
    At(h, s) && (h.actors[s].stage.Open? || h.actors[s].stage.Messaging?)
  }

  /** Nobody is registering, joining, departing or being released. */
  predicate Settled(h: Hub) {
    forall s :: 0 <= s < |h.actors| && Holding(h.actors[s].stage) ==> InRoom(h, s)
  }

  /** Presence converges. Once nobody is coming or going, a session in the room whose mailbox
      never overflowed has Joined as its last word about everyone who registered after it, has
      never been left with Departed about anyone registered, and has Departed or nothing about
      every name that nobody holds. */
  lemma PresenceConverges(h: Hub, s: Sid, u: Str)
    requires Reachable(h) && Settled(h)
    requires InRoom(h, s) && h.actors[s].mail.full == 0
    ensures h.actors[s].key.Some? && h.actors[s].claim.Some?
    ensures var told := LastMark(h.actors[s].mail.enq, u);
            if u !in h.registry then told != HasJoined
            else if u == NameOf(h, s) then h.registry[u] == h.actors[s].claim.value
            else told != HasDeparted && (h.actors[s].claim.value < h.registry[u] ==> told == HasJoined)
  {
    hide Reachable, RegistryOk, OccupancyOk, CastsOk, NamesOk, TalksOk, PresenceOk, DeliveredOk, LastMark;
    ReachableParts(h);
    HolderFound(h, s);
    if u != NameOf(h, s) {
      assert BoxOk(h.actors[s].stage, h.actors[s].mail);
      WatcherIsRight(h, s, u);
    }
  }

  lemma WatcherIsRight(h: Hub, s: Sid, u: Str)
    requires RegistryOk(h) && PresenceOk(h) && Settled(h) && InRoom(h, s) && Lossless(h.actors[s].mail)
    requires h.actors[s].key.Some? && NameOf(h, s) != u && h.actors[s].claim.Some?
    ensures var told := LastMark(h.actors[s].mail.enq, u);
            if u !in h.registry then told != HasJoined
            else told != HasDeparted && (h.actors[s].claim.value < h.registry[u] ==> told == HasJoined)
  {
    var o := h.actors[s].claim.value;
    HolderFound(h, s);
    assert Watches(h, o, u);
    assert MarkFits(h, o, u, ToldAbout(h, o, u));
    hide PresenceOk, LastMark;
    if u in h.registry {
      assert h.registry[u] < |h.claims|;
      var t := h.claims[h.registry[u]].addr;
      HolderIs(h, u, t);
      assert InRoom(h, t);
      assert h.registry[u] != o;
    }
  }

  // ----- ownership -----

  /** Sessions that hold a claim and entries of the map match one to one, by name, by key
      allocation and by mailbox. */
  lemma ClaimsMatchEntries(h: Hub)
    requires Reachable(h)
    ensures forall s :: 0 <= s < |h.actors| && Holding(h.actors[s].stage) ==>
              && h.actors[s].key.Some?
              && NameOf(h, s) in h.registry && h.registry[NameOf(h, s)] < |h.claims|
              && h.claims[h.registry[NameOf(h, s)]] == Entry(h.actors[s].key.value, s)
    ensures forall n :: n in h.registry ==>
              && h.registry[n] < |h.claims|
              && var e := h.claims[h.registry[n]];
                 && At(h, e.addr) && Holding(h.actors[e.addr].stage)
                 && h.actors[e.addr].key == Some(e.key) && e.key.name == n
    ensures forall i, j :: 0 <= i < j < |h.claims| ==>
              h.claims[i].key.alloc != h.claims[j].key.alloc && h.claims[i].addr != h.claims[j].addr
  {
    hide Reachable, OccupancyOk, CastsOk, NamesOk, TalksOk, MailsOk, PresenceOk, DeliveredOk;
    ReachableParts(h);
    forall s | 0 <= s < |h.actors| && Holding(h.actors[s].stage)
      ensures h.actors[s].key.Some? && NameOf(h, s) in h.registry && h.registry[NameOf(h, s)] < |h.claims|
      ensures h.claims[h.registry[NameOf(h, s)]] == Entry(h.actors[s].key.value, s)
    {
      HolderFound(h, s);
    }
    forall n | n in h.registry
      ensures h.registry[n] < |h.claims|
      ensures var e := h.claims[h.registry[n]];
              At(h, e.addr) && Holding(h.actors[e.addr].stage) && h.actors[e.addr].key == Some(e.key) && e.key.name == n
    {
      assert h.registry[n] < |h.claims|;
      HolderIs(h, n, h.claims[h.registry[n]].addr);
    }
    forall i, j | 0 <= i < j < |h.claims|
      ensures h.claims[i].key.alloc != h.claims[j].key.alloc && h.claims[i].addr != h.claims[j].addr
    {
      var s, t := h.claims[i].addr, h.claims[j].addr;
      assert h.actors[s].claim == Some(i) && h.actors[t].claim == Some(j);
    }
  }

  // ----- delivery -----

  /** Every queued frame is another session's broadcast, unchanged; that session held the name the
      frame is about when it began the broadcast; no broadcast is queued twice for one recipient;
      and frames about one name are queued in broadcast order. */
  lemma DeliveryIsFaithful(h: Hub, t: Sid, k: nat)
    requires Reachable(h) && At(h, t) && k < |h.actors[t].mail.enq|
    ensures var x := h.actors[t].mail.enq[k];
            && x.pub < |h.pubs|
            && var p := h.pubs[x.pub];
               && x.frame == p.frame && p.sid != t && p.holder == Some(p.sid)
               && At(h, p.sid) && h.actors[p.sid].key.Some? && About(x.frame) == Some(NameOf(h, p.sid))
    ensures forall j :: 0 <= j < k ==>
              && h.actors[t].mail.enq[j].pub != h.actors[t].mail.enq[k].pub
              && (About(h.actors[t].mail.enq[j].frame) == About(h.actors[t].mail.enq[k].frame)
                  ==> h.actors[t].mail.enq[j].pub < h.actors[t].mail.enq[k].pub)
  {
    hide Reachable, RegistryOk, OccupancyOk, NamesOk, TalksOk, MailsOk, PresenceOk, DeliveredOk, ItersOk, LatestOk;
    ReachableParts(h);
    var enq := h.actors[t].mail.enq;
    assert ItemOk(h, t, enq[k]);
    assert PubOk(h, h.pubs[enq[k].pub]);
    assert InPubOrder(enq);
    forall j | 0 <= j < k ensures enq[j].pub != enq[k].pub {
      assert ItemOk(h, t, enq[j]);
    }
  }

  /** Nobody is left out, and nobody is told twice. Every entry a broadcast has visited, and by its
      end that is every entry that was there when it began and is there still, has met its frame
      exactly once: the frame is in the owner's mailbox, or was lost to that mailbox at the visit;
      whatever else the mailbox may have lost makes no difference. The sender has not met it at
      all. */
  lemma BroadcastLeavesOutNobody(h: Hub, s: Sid, i: nat)
    requires Reachable(h) && At(h, s) && Casting(h.actors[s].stage)
    requires i in h.actors[s].stage.it.seen
          || (Enabled(h, EndCast(s)) && i in h.actors[s].stage.it.start && Present(h, i))
    ensures i < |h.claims| && At(h, h.claims[i].addr) && h.actors[s].stage.it.pub < |h.pubs|
    ensures var m, p := h.actors[h.claims[i].addr].mail, h.actors[s].stage.it.pub;
            if h.claims[i].addr == s then Tally(m, p) == 0
            else
              && Tally(m, p) == 1
              && (p in m.lost <==> !exists j :: 0 <= j < |m.enq| && m.enq[j] == Item(p, h.pubs[p].frame))
  {
    hide Reachable, RegistryOk, OccupancyOk, CastsOk, NamesOk, TalksOk, MailsOk, PresenceOk, DeliveredOk, Tally;
    ReachableParts(h);
    MetOnce(h, s, i);
    var m, p := h.actors[h.claims[i].addr].mail, h.actors[s].stage.it.pub;
    if h.claims[i].addr != s { QueuedOrLost(h, h.claims[i].addr, p); }
  }

  /** What a visit does to the mailbox it comes to: an open one in which fewer than 256 frames wait
      gets the frame and loses nothing; one that is full or closed loses this frame and no other;
      the sender's own is passed over; and no other mailbox is touched. */
  lemma VisitReaches(h: Hub, s: Sid, i: nat)
    requires Reachable(h) && Enabled(h, Visit(s, i))
    ensures i < |h.claims| && At(h, h.claims[i].addr) && |Next(h, Visit(s, i)).actors| == |h.actors|
    ensures var t, it := h.claims[i].addr, h.actors[s].stage.it;
            var m, k := h.actors[t].mail, Next(h, Visit(s, i));
            && (forall r :: 0 <= r < |h.actors| && r != t ==> k.actors[r].mail == h.actors[r].mail)
            && k.actors[t].mail
               == if t == s then m
                  else if m.open && |m.enq| - m.taken < 256 then
                    m.(enq := m.enq + [Item(it.pub, h.pubs[it.pub].frame)], offered := m.offered + 1)
                  else if m.open then m.(lost := m.lost + [it.pub], full := m.full + 1, offered := m.offered + 1)
                  else m.(lost := m.lost + [it.pub], closed := m.closed + 1, offered := m.offered + 1)
  {
    hide Reachable, RegistryOk, OccupancyOk, CastsOk, NamesOk, TalksOk, MailsOk, PresenceOk, DeliveredOk, Next;
    ReachableParts(h);
    VisitDoes(h, s, i);
  }

  lemma MetOnce(h: Hub, s: Sid, i: nat)
    requires CastsOk(h) && DeliveredOk(h) && At(h, s) && Casting(h.actors[s].stage)
    requires i in h.actors[s].stage.it.seen
          || (Enabled(h, EndCast(s)) && i in h.actors[s].stage.it.start && Present(h, i))
    ensures i < |h.claims| && At(h, h.claims[i].addr) && h.actors[s].stage.it.pub < |h.pubs|
    ensures Tally(h.actors[h.claims[i].addr].mail, h.actors[s].stage.it.pub) == if h.claims[i].addr == s then 0 else 1
  {
    hide Tally, PubsOk, LatestOk, ItemsOk, OrderOk;
    assert IterOk(h, s, h.actors[s].stage.it);
    assert Served(h, s, i, h.actors[s].stage.it.pub);
    assert TallyOk(h, s, h.actors[s].stage.it.pub);
  }

  /** What has met a mailbox once is in its queue, unchanged, or was lost. */
  lemma QueuedOrLost(h: Hub, t: Sid, p: nat)
    requires Reachable(h) && At(h, t) && p < |h.pubs| && Tally(h.actors[t].mail, p) == 1
    ensures var m := h.actors[t].mail;
            p in m.lost <==> !exists j :: 0 <= j < |m.enq| && m.enq[j] == Item(p, h.pubs[p].frame)
  {
    hide Reachable;
    var m := h.actors[t].mail;
    var pubs := PubsIn(m.enq);
    if p in pubs {
      var j :| 0 <= j < |pubs| && pubs[j] == p;
      DeliveryIsFaithful(h, t, j);
      assert m.enq[j] == Item(p, h.pubs[p].frame);
    } else {
      assert forall j :: 0 <= j < |m.enq| ==> m.enq[j].pub == pubs[j];
    }
  }

  /** Under every name, across all its holders, the broadcasts are a prefix of
      (Joined Message* Departed)*, open exactly while an announced session holds the name. */
  lemma NamesTalkInTurn(h: Hub, n: Str)
    requires Reachable(h)
    ensures NameTalk(h.pubs, n) == if HeldLive(h, n) then Live else Quiet
  {
    hide Reachable, RegistryOk, OccupancyOk, CastsOk, TalksOk, MailsOk, PresenceOk, DeliveredOk;
    ReachableParts(h);
  }

  /** Every Joined is matched by exactly one Departed by the time its session is gone, and a
      session that never joined never departs. */
  lemma JoinedMatchedByDeparted(h: Hub, s: Sid)
    requires Reachable(h) && At(h, s) && (h.actors[s].stage.Gone? || h.actors[s].stage.Closing?)
    ensures SessionTalk(h.pubs, s) == Quiet || SessionTalk(h.pubs, s) == Over
    ensures JoinsBy(h.pubs, s) == DepartsBy(h.pubs, s) <= 1
  {
    hide Reachable, RegistryOk, OccupancyOk, CastsOk, NamesOk, MailsOk, PresenceOk, DeliveredOk;
    ReachableParts(h);
    TalkCounts(h.pubs, s);
  }

  function JoinsBy(pubs: seq<Pub>, s: Sid): nat {
    if pubs == [] then 0
    else
      var last := pubs[|pubs| - 1];
      JoinsBy(pubs[..|pubs| - 1], s) + One(last.sid == s && last.frame.Joined?)
  }

  function DepartsBy(pubs: seq<Pub>, s: Sid): nat {
    if pubs == [] then 0
    else
      var last := pubs[|pubs| - 1];
      DepartsBy(pubs[..|pubs| - 1], s) + One(last.sid == s && last.frame.Departed?)
  }

  lemma {:induction false} TalkCounts(pubs: seq<Pub>, s: Sid)
    requires SessionTalk(pubs, s) != Broken
    ensures JoinsBy(pubs, s) == if SessionTalk(pubs, s) == Quiet then 0 else 1
    ensures DepartsBy(pubs, s) == if SessionTalk(pubs, s) == Over then 1 else 0
    decreases |pubs|
  {
    if pubs != [] { TalkCounts(pubs[..|pubs| - 1], s); }
  }

  // ----- mailboxes -----

  lemma AllLossesListed(h: Hub)
    requires DeliveredOk(h)
    ensures LossesOk(h)
  {
    hide TallyOk, Served;
  }

  /** Conservation: frames offered were queued, or dropped because the mailbox was full or closed;
      of those queued a prefix was taken and at most 256 are waiting. While a session is in its
      serve loop its own entry still holds a sender of its mailbox, so receiving never reports the
      end of the stream. */
  lemma MailboxConservation(h: Hub, s: Sid)
    requires Reachable(h) && At(h, s)
    ensures var m := h.actors[s].mail;
            && m.taken <= |m.enq|
            && m.offered == m.taken + |m.enq[m.taken..]| + m.full + m.closed && |m.lost| == m.full + m.closed
            && |m.enq[m.taken..]| <= 256
            && (Receiving(h.actors[s].stage) ==> m.open && m.closed == 0)
    ensures h.actors[s].stage.Open? ==> h.actors[s].key.Some? && HolderOf(h, NameOf(h, s)) == Some(s)
  {
    hide Reachable, RegistryOk, OccupancyOk, CastsOk, NamesOk, TalksOk, PresenceOk, DeliveredOk;
    ReachableParts(h);
    AllLossesListed(h);
    assert BoxOk(h.actors[s].stage, h.actors[s].mail);
    if h.actors[s].stage.Open? { HolderFound(h, s); }
  }
}
