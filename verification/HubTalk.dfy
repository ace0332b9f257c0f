/** The order of broadcasts: by one session, and under one name across its holders. */
module HubTalk {
  import opened Wrappers
  import opened Utf8
  import opened Frames
  import opened HubMachine
  import opened HubRegistry
  import opened HubBroadcasts

  datatype Talk = Quiet | Live | Over | Broken

  /** One more broadcast: Joined opens, Message needs an open talk, Departed ends it. */
  function Speak(t: Talk, f: ServerFrame, ended: Talk): Talk {
    match f
    case Joined(_) => if t == Quiet then Live else Broken
    case Message(_, _) => if t == Live then Live else Broken
    case Departed(_) => if t == Live then ended else Broken
    case _ => Broken
  }

  /** Reads the broadcasts about `n` against (Joined Message* Departed)*; Broken means they are
      not a prefix of that. */
  function NameTalk(pubs: seq<Pub>, n: Str): Talk {
    if pubs == [] then Quiet
    else
      var t, last := NameTalk(pubs[..|pubs| - 1], n), pubs[|pubs| - 1];
      if About(last.frame) == Some(n) then Speak(t, last.frame, Quiet) else t
  }

  /** Reads the broadcasts of session `s` against one Joined Message* Departed. */
  function SessionTalk(pubs: seq<Pub>, s: Sid): Talk {
    if pubs == [] then Quiet
    else
      var t, last := SessionTalk(pubs[..|pubs| - 1], s), pubs[|pubs| - 1];
      if last.sid == s then Speak(t, last.frame, Over) else t
  }

  predicate HeldLive(h: Hub, n: Str) {
    var t := HolderOf(h, n);
    t.Some? && At(h, t.value) && Announced(h.actors[t.value].stage)
  }

  ghost predicate NamesOk(h: Hub) {
    forall n: Str :: NameTalk(h.pubs, n) == if HeldLive(h, n) then Live else Quiet
  }

  predicate TalkFits(st: Stage, t: Talk) {
    if Announced(st) then t == Live
    else if st.Departing? then t == Over
    else if st.Idle? || st.Registering? || st.Inserted? || st.Silent? then t == Quiet
    else t == Quiet || t == Over
  }

  predicate TalksOk(h: Hub) {
    && (forall s :: 0 <= s < |h.actors| ==> TalkFits(h.actors[s].stage, SessionTalk(h.pubs, s)))
    && (forall p :: 0 <= p < |h.pubs| ==> At(h, h.pubs[p].sid))
  }

  // ----- steps that broadcast nothing -----

  /** A step that broadcasts nothing moves no session into or out of its announced stages, and
      keeps what each may have broadcast so far. */
  predicate SilentMove(a: Stage, b: Stage) {
    && (Announced(a) <==> Announced(b))
    && (forall t: Talk :: TalkFits(a, t) ==> TalkFits(b, t))
  }

  predicate SilentMoves(h: Hub, k: Hub) {
    && |k.actors| >= |h.actors|
    && (forall s :: 0 <= s < |h.actors| ==> SilentMove(h.actors[s].stage, k.actors[s].stage))
    && (forall s :: |h.actors| <= s < |k.actors| ==> k.actors[s] == NEWCOMER)
  }

  lemma OwnSilentStep(h: Hub, ev: Event)
    requires KeysOk(h) && Enabled(h, ev) && !ev.Publish? && !ev.Visit? && !ev.Spawn?
    ensures At(h, ev.s) && Next(h, ev).actors == h.actors[ev.s := Next(h, ev).actors[ev.s]]
    ensures SilentMove(h.actors[ev.s].stage, Next(h, ev).actors[ev.s].stage)
  {
  }

  lemma SilentSteps(h: Hub, ev: Event)
    requires RegistryOk(h) && Enabled(h, ev) && !ev.Publish?
    ensures SilentMoves(h, Next(h, ev))
  {
    hide ClaimsOk, MapOk, Next, Enabled;
    if ev.Visit? {
      VisitIsSilent(h, ev);
    } else if ev.Spawn? {
      SpawnIsSilent(h);
    } else {
      OwnSilentStep(h, ev);
    }
  }

  lemma VisitIsSilent(h: Hub, ev: Event)
    requires RegistryOk(h) && Enabled(h, ev) && ev.Visit?
    ensures SilentMoves(h, Next(h, ev))
  {
    hide RegistryOk, Next, Offer;
    VisitDoes(h, ev.s, ev.i);
  }

  lemma SpawnIsSilent(h: Hub)
    ensures SilentMoves(h, Next(h, Spawn))
  {
  }

  /** The holder of a name changes only when an unannounced session inserts or removes itself. */
  lemma HoldersKept(h: Hub, ev: Event, n: Str)
    requires RegistryOk(h) && Enabled(h, ev)
    requires HolderOf(Next(h, ev), n) != HolderOf(h, n)
    ensures (ev.Insert? || ev.Remove?) && n == NameOf(h, ev.s)
    ensures HolderOf(h, n) == if ev.Insert? then None else Some(ev.s)
    ensures HolderOf(Next(h, ev), n) == if ev.Insert? then Some(ev.s) else None
  {
    if ev.Remove? {
      RemoveFindsOwnEntry(h, ev.s);
      assert n in h.registry ==> h.registry[n] < |h.claims|;
    } else if ev.Visit? {
      VisitDoes(h, ev.s, ev.i);
    } else if ev.Insert? {
      assert n in h.registry ==> h.registry[n] < |h.claims|;
    }
  }

  lemma HeldLiveKept(h: Hub, ev: Event, n: Str)
    requires RegistryOk(h) && Enabled(h, ev) && !ev.Publish?
    ensures HeldLive(Next(h, ev), n) <==> HeldLive(h, n)
  {
    SilentSteps(h, ev);
    if HolderOf(Next(h, ev), n) != HolderOf(h, n) {
      HoldersKept(h, ev, n);
    }
    hide RegistryOk, Next, HolderOf;
  }

  lemma SilentStepNames(h: Hub, ev: Event)
    requires RegistryOk(h) && NamesOk(h) && Enabled(h, ev) && !ev.Publish?
    ensures NamesOk(Next(h, ev))
  {
    var k := Next(h, ev);
    hide RegistryOk, HeldLive;
    forall n: Str ensures NameTalk(k.pubs, n) == if HeldLive(k, n) then Live else Quiet {
      HeldLiveKept(h, ev, n);
      assert k.pubs == h.pubs;
    }
  }

  /** A session that is not there yet has said nothing. */
  lemma {:induction false} StrangerIsQuiet(pubs: seq<Pub>, s: Sid)
    requires forall p :: 0 <= p < |pubs| ==> pubs[p].sid != s
    ensures SessionTalk(pubs, s) == Quiet
    decreases |pubs|
  {
    if pubs != [] { StrangerIsQuiet(pubs[..|pubs| - 1], s); }
  }

  lemma SilentStepTalks(h: Hub, ev: Event)
    requires RegistryOk(h) && TalksOk(h) && Enabled(h, ev) && !ev.Publish?
    ensures TalksOk(Next(h, ev))
  {
    SilentSteps(h, ev);
    QuietPubs(h, ev);
    hide Next, SilentMove, Enabled;
    if ev.Spawn? { StrangerIsQuiet(h.pubs, |h.actors|); }
    var k := Next(h, ev);
    forall s | 0 <= s < |k.actors| ensures TalkFits(k.actors[s].stage, SessionTalk(k.pubs, s)) {
      if s < |h.actors| {
        assert SilentMove(h.actors[s].stage, k.actors[s].stage);
      } else {
        StrangerIsQuiet(h.pubs, s);
      }
    }
  }

  lemma QuietPubs(h: Hub, ev: Event)
    requires Enabled(h, ev) && !ev.Publish?
    ensures Next(h, ev).pubs == h.pubs
  {
  }

  // ----- a broadcast -----

  lemma PublishNames(h: Hub, s: Sid, frame: ServerFrame, cause: nat, at: real)
    requires RegistryOk(h) && NamesOk(h) && Enabled(h, Publish(s, frame, cause, at))
    ensures NamesOk(Next(h, Publish(s, frame, cause, at)))
  {
    HolderFound(h, s);
    var k := Next(h, Publish(s, frame, cause, at));
    assert k.pubs[..|k.pubs| - 1] == h.pubs;
    forall n: Str ensures NameTalk(k.pubs, n) == if HeldLive(k, n) then Live else Quiet {
      assert NameTalk(h.pubs, n) == if HeldLive(h, n) then Live else Quiet;
      if n != NameOf(h, s) && n in h.registry {
        assert h.claims[h.registry[n]].addr != s;
      }
    }
  }

  lemma PublishTalks(h: Hub, s: Sid, frame: ServerFrame, cause: nat, at: real)
    requires TalksOk(h) && Enabled(h, Publish(s, frame, cause, at))
    ensures TalksOk(Next(h, Publish(s, frame, cause, at)))
  {
    var k := Next(h, Publish(s, frame, cause, at));
    assert k.pubs[..|k.pubs| - 1] == h.pubs;
    forall t | 0 <= t < |k.actors| ensures TalkFits(k.actors[t].stage, SessionTalk(k.pubs, t)) {
      assert TalkFits(h.actors[t].stage, SessionTalk(h.pubs, t));
    }
  }

  lemma TalkStep(h: Hub, ev: Event)
    requires RegistryOk(h) && NamesOk(h) && TalksOk(h) && Enabled(h, ev)
    ensures NamesOk(Next(h, ev)) && TalksOk(Next(h, ev))
  {
    hide Next, RegistryOk, NamesOk, TalksOk;
    if ev.Publish? {
      PublishNames(h, ev.s, ev.frame, ev.cause, ev.at);
      PublishTalks(h, ev.s, ev.frame, ev.cause, ev.at);
    } else {
      SilentStepNames(h, ev);
      SilentStepTalks(h, ev);
    }
  }
}
