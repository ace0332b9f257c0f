/** Mailboxes: what is offered, queued, dropped and taken. */
module HubMailboxes {
  import opened HubMachine
  import opened HubRegistry
  import opened HubBroadcasts

  /** From its insertion until its departure has been broadcast. */
  predicate Receiving(st: Stage) {
    st.Inserted? || st.Silent? || st.Joining? || st.Open? || st.Messaging? || st.Departing?
  }

  /** Every frame offered was queued or dropped, at most 256 are waiting, and none is ever turned
      away for a closed mailbox while the session is receiving. */
  predicate BoxOk(st: Stage, m: Mailbox) {
    && m.offered == |m.enq| + m.full + m.closed
    && m.taken <= |m.enq| <= m.taken + SESSION_QUEUE_DEPTH
    && (m.open ==> m.closed == 0)
    && (Receiving(st) || st.Idle? || st.Registering? ==> m.open)
  }

  predicate MailsOk(h: Hub) {
    forall s :: 0 <= s < |h.actors| ==> BoxOk(h.actors[s].stage, h.actors[s].mail)
  }

  lemma VisitMails(h: Hub, k: Hub, s: Sid, i: nat)
    requires MailsOk(h) && Enabled(h, Visit(s, i)) && VisitEffect(h, k, s, i)
    ensures MailsOk(k)
  {
    forall r | 0 <= r < |k.actors| ensures BoxOk(k.actors[r].stage, k.actors[r].mail) {
      assert BoxOk(h.actors[r].stage, h.actors[r].mail);
    }
  }

  /** What a step other than a visit does to the mailbox of the session that takes it. */
  lemma OwnMail(h: Hub, ev: Event)
    requires Enabled(h, ev) && !ev.Visit? && !ev.Spawn?
    ensures At(h, ev.s) && Next(h, ev).actors == h.actors[ev.s := Next(h, ev).actors[ev.s]]
    ensures var a, b := h.actors[ev.s], Next(h, ev).actors[ev.s];
            if ev.Take? then
              b.stage == a.stage && b.mail == a.mail.(taken := a.mail.taken + 1) && a.mail.taken < |a.mail.enq|
            else if ev.GiveUp? || ev.Close? then
              (b.stage.Releasing? || b.stage.Gone?) && b.mail == a.mail.(open := false)
            else
              && b.mail == a.mail && !b.stage.Idle?
              && (Receiving(b.stage) || b.stage.Registering? ==>
                    Receiving(a.stage) || a.stage.Idle? || a.stage.Registering?)
  {
    hide Offer, PresentClaims, Finished, HolderOf, VisitStep;
  }

  lemma OtherMails(h: Hub, ev: Event)
    requires MailsOk(h) && Enabled(h, ev) && !ev.Visit?
    ensures MailsOk(Next(h, ev))
  {
    hide Next, Enabled;
    var k := Next(h, ev);
    if ev.Spawn? {
      SpawnedMail(h);
    } else {
      OwnMail(h, ev);
    }
    forall r | 0 <= r < |k.actors| ensures BoxOk(k.actors[r].stage, k.actors[r].mail) {
      if r < |h.actors| { assert BoxOk(h.actors[r].stage, h.actors[r].mail); }
    }
  }

  lemma SpawnedMail(h: Hub)
    ensures Enabled(h, Spawn) && Next(h, Spawn).actors == h.actors + [NEWCOMER]
  {
  }

  lemma MailStep(h: Hub, ev: Event)
    requires RegistryOk(h) && MailsOk(h) && Enabled(h, ev)
    ensures MailsOk(Next(h, ev))
  {
    hide Next, RegistryOk, MailsOk, VisitEffect;
    if ev.Visit? {
      VisitDoes(h, ev.s, ev.i);
      VisitMails(h, Next(h, ev), ev.s, ev.i);
    } else {
      OtherMails(h, ev);
    }
  }

  // ----- a slow consumer -----

  /** The two states differ at most in the mailbox of `p`. */
  predicate SameBut(p: Sid, a: Hub, b: Hub) {
    && a.registry == b.registry && a.claims == b.claims && a.occupancy == b.occupancy
    && a.nextAlloc == b.nextAlloc && a.pubs == b.pubs && |a.actors| == |b.actors|
    && forall s :: 0 <= s < |a.actors| ==>
         && a.actors[s].stage == b.actors[s].stage && a.actors[s].key == b.actors[s].key
         && a.actors[s].claim == b.actors[s].claim
         && (s != p ==> a.actors[s].mail == b.actors[s].mail)
  }

  lemma SamePresent(p: Sid, a: Hub, b: Hub)
    requires SameBut(p, a, b)
    ensures PresentClaims(a) == PresentClaims(b)
    ensures forall i: nat :: Present(a, i) <==> Present(b, i)
  {
  }

  /** Whatever `p` has drained, any other step is possible in one state just when it is in the
      other, with the same effect on everybody else. */
  lemma OthersUnaffected(p: Sid, a: Hub, b: Hub, ev: Event)
    requires SameBut(p, a, b) && Enabled(a, ev) && ev != Take(p)
    ensures Enabled(b, ev) && SameBut(p, Next(a, ev), Next(b, ev))
  {
    hide Present, PresentClaims, Offer, VisitStep, SamePointer, InsertStep, PublishStep, RemoveStep;
    SamePresent(p, a, b);
    if ev.Visit? {
      VisitUnaffected(p, a, b, ev);
    } else if ev.Insert? || ev.Publish? || ev.Remove? {
      NameStepUnaffected(p, a, b, ev);
    }
  }

  lemma VisitUnaffected(p: Sid, a: Hub, b: Hub, ev: Event)
    requires SameBut(p, a, b) && Enabled(a, ev) && ev.Visit?
    ensures Enabled(b, ev) && SameBut(p, Next(a, ev), Next(b, ev))
  {
    hide Offer;
    assert SameBut(p, VisitStep(a, ev.s, ev.i), VisitStep(b, ev.s, ev.i));
  }

  lemma NameStepUnaffected(p: Sid, a: Hub, b: Hub, ev: Event)
    requires SameBut(p, a, b) && Enabled(a, ev) && (ev.Insert? || ev.Publish? || ev.Remove?)
    ensures Enabled(b, ev) && SameBut(p, Next(a, ev), Next(b, ev))
  {
    if ev.Insert? {
      InsertUnaffected(p, a, b, ev.s);
    } else if ev.Publish? {
      PublishUnaffected(p, a, b, ev);
    } else {
      RemoveUnaffected(p, a, b, ev.s);
    }
  }

  lemma InsertUnaffected(p: Sid, a: Hub, b: Hub, s: Sid)
    requires SameBut(p, a, b) && Enabled(a, Insert(s))
    ensures Enabled(b, Insert(s)) && SameBut(p, Next(a, Insert(s)), Next(b, Insert(s)))
  {
  }

  lemma PublishUnaffected(p: Sid, a: Hub, b: Hub, ev: Event)
    requires SameBut(p, a, b) && Enabled(a, ev) && ev.Publish?
    ensures Enabled(b, ev) && SameBut(p, Next(a, ev), Next(b, ev))
  {
    hide Present, PresentClaims;
    SamePresent(p, a, b);
  }

  lemma RemoveUnaffected(p: Sid, a: Hub, b: Hub, s: Sid)
    requires SameBut(p, a, b) && Enabled(a, Remove(s))
    ensures Enabled(b, Remove(s)) && SameBut(p, Next(a, Remove(s)), Next(b, Remove(s)))
  {
  }

  lemma DrainUnnoticed(p: Sid, a: Hub, b: Hub)
    requires SameBut(p, a, b) && Enabled(a, Take(p))
    ensures SameBut(p, Next(a, Take(p)), b)
  {
  }

  /** The run without the steps in which `p` takes from its mailbox. */
  function Undrained(p: Sid, evs: seq<Event>): seq<Event> {
    if evs == [] then []
    else
      var front, last := Undrained(p, evs[..|evs| - 1]), evs[|evs| - 1];
      if last == Take(p) then front else front + [last]
  }

  /** A session that stops draining blocks nobody: the very same registrations, releases,
      broadcasts and visits remain possible, and nothing but its own mailbox is different. */
  lemma {:induction false} SlowConsumerBlocksNobody(h: Hub, p: Sid, evs: seq<Event>)
    requires ValidRun(h, evs)
    ensures ValidRun(h, Undrained(p, evs))
    ensures SameBut(p, Run(h, evs), Run(h, Undrained(p, evs)))
    decreases |evs|
  {
    hide Enabled, Next;
    if evs != [] {
      var front, last := evs[..|evs| - 1], evs[|evs| - 1];
      SlowConsumerBlocksNobody(h, p, front);
      var a, slow := Run(h, front), Undrained(p, front);
      if last == Take(p) {
        DrainUnnoticed(p, a, Run(h, slow));
      } else {
        OthersUnaffected(p, a, Run(h, slow), last);
        assert (slow + [last])[..|slow|] == slow;
      }
    }
  }

  /** Two runs that differ only in when `p` drains its mailbox leave every other session's
      queued and dropped frames, and everything else, identical. */
  lemma DrainTimingIsPrivate(h: Hub, p: Sid, one: seq<Event>, two: seq<Event>)
    requires ValidRun(h, one) && ValidRun(h, two) && Undrained(p, one) == Undrained(p, two)
    ensures SameBut(p, Run(h, one), Run(h, two))
  {
    SlowConsumerBlocksNobody(h, p, one);
    SlowConsumerBlocksNobody(h, p, two);
  }
}
