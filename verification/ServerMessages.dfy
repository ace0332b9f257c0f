/** Where messages come from, and when: provenance and flood bounds over whole runs. */
module ServerMessages {
  import opened Utf8
  import opened Frames
  import opened SessionLoop
  import opened SessionTrace
  import opened ServerMachine
  import opened ServerSessions
  import opened ServerSafety
  import Hub = HubMachine
  import HubRegistry

  // ----- causes -----

  /** The frame just read is still being handled. */
  predicate Busy(l: Local) { l.pc.Handling? && l.pc.arm.OnRead? }

  /** A message comes from a Send with that body that its publisher has read and is done with. */
  predicate CauseOk(w: World, p: Hub.Pub) {
    p.frame.Message? ==>
      && p.sid < |w.locals|
      && var l := w.locals[p.sid];
         && p.cause < l.nread <= |l.arrived|
         && l.arrived[p.cause] == Frame(Send(p.frame.body)) && ValidBody(p.frame.body)
         && (Busy(l) ==> p.cause < l.nread - 1)
  }

  /** No Send causes two messages. */
  predicate CausesRise(pubs: seq<Hub.Pub>) {
    forall p, q :: 0 <= p < q < |pubs| && SameSender(pubs[p], pubs[q]) ==> pubs[p].cause < pubs[q].cause
  }

  predicate SameSender(p: Hub.Pub, q: Hub.Pub) { p.frame.Message? && q.frame.Message? && p.sid == q.sid }

  predicate CausesOk(w: World) {
    && (forall p :: 0 <= p < |w.hub.pubs| ==> CauseOk(w, w.hub.pubs[p]))
    && CausesRise(w.hub.pubs)
  }

  // ----- turns -----

  /** A message, and when its broadcast began. */
  datatype Utterance = Utterance(frame: ServerFrame, at: real)

  /** The messages `s` has broadcast. */
  function MessagesBy(pubs: seq<Hub.Pub>, s: Hub.Sid): seq<Utterance> {
    if pubs == [] then []
    else
      var us, last := MessagesBy(pubs[..|pubs| - 1], s), pubs[|pubs| - 1];
      if last.sid == s && last.frame.Message? then us + [Utterance(last.frame, last.at)] else us
  }

  /** The messages to which the turns of the loop led. */
  function UtteredIn(cfg: Config, me: Str, start: real, trace: seq<Beat>): seq<Utterance> {
    if trace == [] then []
    else
      var us, r := UtteredIn(cfg, me, start, trace[..|trace| - 1]), LastReaction(cfg, me, start, trace);
      if r.Broadcast? then us + [Utterance(r.frame, trace[|trace| - 1].at)] else us
  }

  predicate TurnsMatch(w: World, s: Hub.Sid)
    requires At(w, s)
  {
    MessagesBy(w.hub.pubs, s)
    == UtteredIn(w.cfg, Me(w.hub.actors[s]), w.locals[s].start, w.locals[s].trace)
  }

  predicate TurnsOk(w: World) { forall s :: 0 <= s < |w.locals| && At(w, s) ==> TurnsMatch(w, s) }

  lemma MessagesPush(pubs: seq<Hub.Pub>, p: Hub.Pub, s: Hub.Sid)
    ensures MessagesBy(pubs + [p], s)
         == MessagesBy(pubs, s) + (if p.sid == s && p.frame.Message? then [Utterance(p.frame, p.at)] else [])
  {
    assert (pubs + [p])[..|pubs|] == pubs;
  }

  lemma {:induction false} NoMessages(pubs: seq<Hub.Pub>, s: Hub.Sid)
    requires forall p :: 0 <= p < |pubs| ==> pubs[p].sid != s
    ensures MessagesBy(pubs, s) == []
    decreases |pubs|
  {
    if pubs != [] { NoMessages(pubs[..|pubs| - 1], s); }
  }

  // ----- how a step moves one session -----

  /** The session has read no less, and is not back at a frame it had finished with. */
  predicate Advances(l: Local, k: Local) {
    && l.arrived <= k.arrived && l.nread <= k.nread <= |k.arrived|
    && (Busy(k) ==> k.nread > l.nread || Busy(l))
  }

  lemma MovedAdvances(w: World, ev: Event)
    requires Enabled(w, ev) && IsSession(ev) && At(w, ev.s) && w.locals[ev.s].nread <= |w.locals[ev.s].arrived|
    ensures Advances(w.locals[ev.s], Moved(w, ev))
  {
    hide Hub.Enabled, React, Fits, Judge, HubEvent;
  }

  lemma MovedTrace(w: World, ev: Event)
    requires Enabled(w, ev) && IsSession(ev) && At(w, ev.s) && !ev.Handle?
    ensures Moved(w, ev).trace == w.locals[ev.s].trace
    ensures Moved(w, ev).start == w.locals[ev.s].start || (ev.EndCast? && w.locals[ev.s].pc.Announcing?)
  {
    hide Hub.Enabled, React, Fits, Judge, HubEvent;
  }

  lemma CauseKept(w: World, k: World, p: Hub.Pub)
    requires CauseOk(w, p) && |k.locals| >= |w.locals|
    requires p.sid < |w.locals| ==> Advances(w.locals[p.sid], k.locals[p.sid])
    ensures CauseOk(k, p)
  {
    hide ValidateBody;
  }

  lemma StandingStill(l: Local)
    requires l.nread <= |l.arrived|
    ensures Advances(l, l)
  {
  }

  /** What a step may add to the broadcasts. */
  lemma PubsPushed(w: World, ev: Event)
    requires Enabled(w, ev)
    ensures var p, q := w.hub.pubs, Next(w, ev).hub.pubs;
            if HubEvent(w, ev).Some? && HubEvent(w, ev).value.Publish?
            then
              && (ev.BeginJoined? || ev.BeginDeparted? || ev.Handle?)
              && |q| == |p| + 1 && q[..|p|] == p && q == p + [q[|p|]]
              && q[|p|].sid == ev.s && q[|p|].frame == HubEvent(w, ev).value.frame && q[|p|].at == w.clock
              && q[|p|].cause == HubEvent(w, ev).value.cause
              && (q[|p|].frame.Message? ==> ev.Handle?)
            else q == p
  {
    NextHub(w, ev);
    var e := HubEvent(w, ev);
    if e.Some? {
      hide HubEvent, Enabled, Next;
      PubsGrow(w.hub, e.value);
      if e.value.Publish? { PublishKinds(w, ev); }
      hide Hub.Next, Hub.Enabled;
    }
  }

  lemma PublishKinds(w: World, ev: Event)
    requires LocallyEnabled(w, ev) && HubEvent(w, ev).Some? && HubEvent(w, ev).value.Publish?
    ensures ev.BeginJoined? || ev.BeginDeparted? || ev.Handle?
    ensures HubEvent(w, ev).value.s == ev.s && HubEvent(w, ev).value.at == w.clock
    ensures HubEvent(w, ev).value.frame.Message? ==> ev.Handle?
  {
    hide Fits, Reacts;
  }

  // ----- steps other than handling a frame -----

  lemma AllAdvance(w: World, ev: Event, r: Hub.Sid)
    requires SessionsOk(w) && Enabled(w, ev) && r < |w.locals|
    ensures r < |Next(w, ev).locals| && Advances(w.locals[r], Next(w, ev).locals[r])
    ensures |Next(w, ev).locals| >= |w.locals|
  {
    hide Enabled, Moved, HubEvent, TraceOk, MailOk, ValidateUsername;
    assert SessionOk(w.cfg, w.locals[r], w.hub.actors[r], w.clock);
    StandingStill(w.locals[r]);
    if IsSession(ev) {
      NextIs(w, ev);
      assert SessionOk(w.cfg, w.locals[ev.s], w.hub.actors[ev.s], w.clock);
      MovedAdvances(w, ev);
    }
  }

  lemma CausesKept(w: World, k: World)
    requires CausesOk(w) && |k.locals| >= |w.locals|
    requires forall r :: 0 <= r < |w.locals| ==> Advances(w.locals[r], k.locals[r])
    requires k.hub.pubs == w.hub.pubs
          || (exists x :: k.hub.pubs == w.hub.pubs + [x] && !x.frame.Message?)
    ensures CausesOk(k)
  {
    hide Advances, CauseOk;
    forall p | 0 <= p < |k.hub.pubs| ensures CauseOk(k, k.hub.pubs[p]) {
      if p < |w.hub.pubs| {
        CauseKept(w, k, w.hub.pubs[p]);
      } else {
        OtherFrame(k, k.hub.pubs[p]);
      }
    }
  }

  lemma OtherFrame(k: World, p: Hub.Pub)
    requires !p.frame.Message?
    ensures CauseOk(k, p)
  {
  }

  /** A handled Send is a new cause: it was not the cause of any earlier message. */
  lemma CausesPushed(w: World, k: World, x: Hub.Pub)
    requires CausesOk(w) && |k.locals| >= |w.locals|
    requires forall r :: 0 <= r < |w.locals| ==> Advances(w.locals[r], k.locals[r])
    requires k.hub.pubs == w.hub.pubs + [x] && CauseOk(k, x)
    requires x.sid < |w.locals| && Busy(w.locals[x.sid]) && x.cause == w.locals[x.sid].nread - 1
    ensures CausesOk(k)
  {
    hide Advances;
    forall p | 0 <= p < |k.hub.pubs| ensures CauseOk(k, k.hub.pubs[p]) {
      if p < |w.hub.pubs| { CauseKept(w, k, w.hub.pubs[p]); }
    }
    forall p | 0 <= p < |w.hub.pubs| && SameSender(w.hub.pubs[p], x) ensures w.hub.pubs[p].cause < x.cause {
      assert CauseOk(w, w.hub.pubs[p]);
    }
  }

  lemma AllAdvanced(w: World, ev: Event)
    requires SessionsOk(w) && Enabled(w, ev)
    ensures |Next(w, ev).locals| >= |w.locals|
    ensures forall r :: 0 <= r < |w.locals| ==> Advances(w.locals[r], Next(w, ev).locals[r])
  {
    LocalsGrow(w, ev);
    hide SessionsOk, Next, Enabled, Advances;
    forall r | 0 <= r < |w.locals| ensures Advances(w.locals[r], Next(w, ev).locals[r]) {
      AllAdvance(w, ev, r);
    }
  }

  lemma LocalsGrow(w: World, ev: Event)
    requires Enabled(w, ev)
    ensures |Next(w, ev).locals| >= |w.locals|
  {
    if IsSession(ev) { NextIs(w, ev); }
    hide LocallyEnabled, HubEvent, Moved, Hub.Next;
  }

  lemma HandledSend(w: World, s: Hub.Sid)
    requires SessionsOk(w) && Enabled(w, Handle(s)) && Reacts(w, s, w.locals[s].pc.arm).Broadcast?
    ensures var x := Hub.Pub(s, Reacts(w, s, w.locals[s].pc.arm).frame, Cause(w.locals[s]), w.clock,
                             Hub.HolderOf(w.hub, NameOf(w, s)));
            && Next(w, Handle(s)).hub.pubs == w.hub.pubs + [x]
            && x.frame.Message? && CauseOk(Next(w, Handle(s)), x)
            && Busy(w.locals[s]) && x.cause == w.locals[s].nread - 1
  {
    hide Fits, React, ValidateBody, VarsAfter, ValidateUsername, MailOk, TraceOk;
    var l, me := w.locals[s], NameOf(w, s);
    BroadcastIsMessage(w.cfg, me, VarsAfter(w.cfg, me, l.start, l.trace), w.clock, l.pc.arm);
    assert ReadOk(l) by { assert SessionOk(w.cfg, l, w.hub.actors[s], w.clock); }
    NextIs(w, Handle(s));
    PubsGrow(w.hub, HubEvent(w, Handle(s)).value);
  }

  lemma CausesStep(w: World, ev: Event)
    requires SessionsOk(w) && CausesOk(w) && Enabled(w, ev)
    ensures CausesOk(Next(w, ev))
  {
    AllAdvanced(w, ev);
    PubsPushed(w, ev);
    var k := Next(w, ev);
    if ev.Handle? && HubEvent(w, ev).Some? {
      HandleEvent(w, ev.s);
      HandledSend(w, ev.s);
      hide SessionsOk, CausesOk, Next, Enabled, Advances, HubEvent, CauseOk;
      CausesPushed(w, k, k.hub.pubs[|w.hub.pubs|]);
    } else {
      hide SessionsOk, CausesOk, Next, Enabled, Advances, HubEvent;
      CausesKept(w, k);
    }
  }

  lemma HandleEvent(w: World, s: Hub.Sid)
    requires LocallyEnabled(w, Handle(s))
    ensures HubEvent(w, Handle(s)).Some? <==> Reacts(w, s, w.locals[s].pc.arm).Broadcast?
    ensures HubEvent(w, Handle(s)).Some? ==> HubEvent(w, Handle(s)).value.Publish?
  {
  }

  // ----- the turns of each session -----

  lemma UtteredPush(cfg: Config, me: Str, l: Local, now: real)
    requires l.pc.Handling?
    ensures var r := React(cfg, me, VarsAfter(cfg, me, l.start, l.trace), now, l.pc.arm).1;
            UtteredIn(cfg, me, l.start, AfterHandling(l, now, r).trace)
            == UtteredIn(cfg, me, l.start, l.trace) + (if r.Broadcast? then [Utterance(r.frame, now)] else [])
  {
    var r := React(cfg, me, VarsAfter(cfg, me, l.start, l.trace), now, l.pc.arm).1;
    var t := AfterHandling(l, now, r).trace;
    assert t[..|l.trace|] == l.trace;
    hide React, VarsAfter;
  }

  /** A session that takes no turn of its loop broadcasts no message. */
  lemma TurnsElsewhere(w: World, ev: Event, r: Hub.Sid)
    requires Inv(w) && Enabled(w, ev) && At(w, r) && TurnsMatch(w, r) && !(ev.Handle? && r == ev.s)
    ensures At(Next(w, ev), r) && TurnsMatch(Next(w, ev), r)
  {
    hide Inv, Next, Enabled, HubEvent;
    var k := Next(w, ev);
    PubsPushed(w, ev);
    TraceElsewhere(w, ev, r);
    if |k.hub.pubs| > |w.hub.pubs| {
      MessagesPush(w.hub.pubs, k.hub.pubs[|w.hub.pubs|], r);
    }
  }

  /** The turns a session has taken, and the name and beginning they depend on, are as they
      were; before the loop begins there are no turns at all. */
  predicate SameTurns(l: Local, a: Hub.Actor, k: Local, b: Hub.Actor) {
    k.trace == l.trace && (l.trace != [] ==> k.start == l.start && Me(b) == Me(a))
  }

  lemma TraceElsewhere(w: World, ev: Event, r: Hub.Sid)
    requires Inv(w) && Enabled(w, ev) && At(w, r) && !(ev.Handle? && r == ev.s)
    ensures At(Next(w, ev), r) && Next(w, ev).cfg == w.cfg
    ensures SameTurns(w.locals[r], w.hub.actors[r], Next(w, ev).locals[r], Next(w, ev).hub.actors[r])
  {
    SameConfig(w, ev);
    hide Inv, Enabled, Next;
    if !IsSession(ev) {
      ServerTurns(w, ev, r);
    } else {
      SessionTurns(w, ev, r);
    }
  }

  lemma SessionTurns(w: World, ev: Event, r: Hub.Sid)
    requires Inv(w) && Enabled(w, ev) && At(w, r) && !(ev.Handle? && r == ev.s) && IsSession(ev)
    ensures At(Next(w, ev), r)
    ensures SameTurns(w.locals[r], w.hub.actors[r], Next(w, ev).locals[r], Next(w, ev).hub.actors[r])
  {
    hide Inv, Enabled, Next, HubAfter, Moved;
    NextIs(w, ev);
    NumberKept(w, ev);
    if r == ev.s {
      OwnTurns(w, ev);
    } else {
      OtherName(w, ev, r);
    }
  }

  lemma ServerTurns(w: World, ev: Event, r: Hub.Sid)
    requires Enabled(w, ev) && At(w, r) && !IsSession(ev)
    ensures At(Next(w, ev), r)
    ensures Next(w, ev).locals[r] == w.locals[r] && Next(w, ev).hub.actors[r] == w.hub.actors[r]
  {
  }

  lemma OwnTurns(w: World, ev: Event)
    requires Inv(w) && Enabled(w, ev) && IsSession(ev) && At(w, ev.s) && Hub.At(HubAfter(w, ev), ev.s) && !ev.Handle?
    ensures SameTurns(w.locals[ev.s], w.hub.actors[ev.s], Moved(w, ev), HubAfter(w, ev).actors[ev.s])
  {
    MovedTrace(w, ev);
    OwnName(w, ev);
    var l := w.locals[ev.s];
    assert SessionOk(w.cfg, l, w.hub.actors[ev.s], w.clock) by { assert SessionsOk(w); }
    hide Inv, Enabled, HubAfter, Moved, LocalOk, MailOk, Linked;
  }

  lemma OwnName(w: World, ev: Event)
    requires Inv(w) && Enabled(w, ev) && IsSession(ev) && At(w, ev.s) && Hub.At(HubAfter(w, ev), ev.s)
    ensures Me(HubAfter(w, ev).actors[ev.s]) == Me(w.hub.actors[ev.s]) || w.locals[ev.s].pc.AwaitHello?
  {
    hide Inv, Enabled, HubEvent, LocallyEnabled, Hub.Next, Hub.Enabled, HubRegistry.RegistryOk;
    EventActor(w, ev);
    NextHub(w, ev);
    HubOwned(w);
    var e := HubEvent(w, ev);
    if e.Some? {
      if e.value.MakeKey? { MakesKeyAtHello(w, ev); } else { KeyKept(w.hub, e.value, ev.s); }
    }
  }

  lemma MakesKeyAtHello(w: World, ev: Event)
    requires LocallyEnabled(w, ev) && HubEvent(w, ev).Some? && HubEvent(w, ev).value.MakeKey?
    ensures ev.HelloRead? && w.locals[ev.s].pc.AwaitHello?
  {
    hide Reacts, Chosen;
  }

  lemma KeyKept(h: Hub.Hub, e: Hub.Event, s: Hub.Sid)
    requires HubRegistry.RegistryOk(h) && Hub.Enabled(h, e) && !e.MakeKey? && Hub.At(h, s)
    ensures Hub.At(Hub.Next(h, e), s) && Hub.Next(h, e).actors[s].key == h.actors[s].key
  {
    hide HubRegistry.RegistryOk;
  }

  lemma OtherName(w: World, ev: Event, r: Hub.Sid)
    requires Inv(w) && Enabled(w, ev) && IsSession(ev) && At(w, r) && r != ev.s
    ensures Hub.At(HubAfter(w, ev), r) && Me(HubAfter(w, ev).actors[r]) == Me(w.hub.actors[r])
  {
    hide Inv, Enabled, HubAfter;
    OthersKept(w, ev, r);
  }

  lemma TurnsHere(w: World, s: Hub.Sid)
    requires Inv(w) && Enabled(w, Handle(s)) && At(w, s) && TurnsMatch(w, s)
    ensures At(Next(w, Handle(s)), s) && TurnsMatch(Next(w, Handle(s)), s)
  {
    var ev, l, a := Handle(s), w.locals[s], w.hub.actors[s];
    HandleTurn(w, s);
    HandlePubs(w, s);
    SameConfig(w, ev);
    hide Inv, Next, Enabled, React, VarsAfter;
    UtteredPush(w.cfg, Me(a), l, w.clock);
  }

  lemma HandleTurn(w: World, s: Hub.Sid)
    requires Inv(w) && Enabled(w, Handle(s)) && At(w, s)
    ensures At(Next(w, Handle(s)), s) && Named(w, s) && w.locals[s].pc.Handling?
    ensures Next(w, Handle(s)).locals[s] == AfterHandling(w.locals[s], w.clock, Reacts(w, s, w.locals[s].pc.arm))
    ensures Me(Next(w, Handle(s)).hub.actors[s]) == Me(w.hub.actors[s])
  {
    hide Inv, HubAfter, Reacts, Enabled, Moved, Next, AfterHandling;
    HandleMoves(w, s);
    NextIs(w, Handle(s));
    NumberKept(w, Handle(s));
    OwnName(w, Handle(s));
  }

  lemma HandleMoves(w: World, s: Hub.Sid)
    requires Enabled(w, Handle(s))
    ensures Named(w, s) && w.locals[s].pc.Handling?
    ensures Moved(w, Handle(s)) == AfterHandling(w.locals[s], w.clock, Reacts(w, s, w.locals[s].pc.arm))
  {
    hide HubEvent, Fits, Reacts;
  }

  lemma HandlePubs(w: World, s: Hub.Sid)
    requires Inv(w) && Enabled(w, Handle(s)) && Named(w, s) && w.locals[s].pc.Handling?
    ensures var r := Reacts(w, s, w.locals[s].pc.arm);
            MessagesBy(Next(w, Handle(s)).hub.pubs, s)
            == MessagesBy(w.hub.pubs, s) + (if r.Broadcast? then [Utterance(r.frame, w.clock)] else [])
  {
    hide HubSafety.Inv, PubsOrdinary, SessionsOk, Enabled, Next, HubEvent, Reacts, CauseOk, LocallyEnabled;
    StillLocal(w, Handle(s));
    HandleEvent(w, s);
    PubsPushed(w, Handle(s));
    if Reacts(w, s, w.locals[s].pc.arm).Broadcast? {
      HandledSend(w, s);
      MessagesPush(w.hub.pubs, Next(w, Handle(s)).hub.pubs[|w.hub.pubs|], s);
    }
  }

  lemma TurnsAt(w: World, ev: Event, r: Hub.Sid)
    requires Inv(w) && TurnsOk(w) && Enabled(w, ev) && r < |w.locals|
    ensures At(Next(w, ev), r) && TurnsMatch(Next(w, ev), r)
  {
    assert At(w, r) by { assert SessionsOk(w); }
    hide Inv, Next, Enabled, TurnsMatch;
    assert TurnsMatch(w, r);
    if ev.Handle? && ev.s == r {
      TurnsHere(w, r);
    } else {
      TurnsElsewhere(w, ev, r);
    }
  }

  /** A session that has just been spawned has broadcast nothing. */
  lemma NewTurns(w: World, ev: Event, r: Hub.Sid)
    requires Inv(w) && Enabled(w, ev) && |w.locals| <= r < |Next(w, ev).locals| && At(Next(w, ev), r)
    ensures TurnsMatch(Next(w, ev), r)
  {
    if IsSession(ev) { NextIs(w, ev); }
    SpawnedLast(w, ev, r);
    PubsPushed(w, ev);
    assert forall p :: 0 <= p < |w.hub.pubs| ==> Hub.At(w.hub, w.hub.pubs[p].sid);
    hide Inv, Next, Enabled, HubEvent;
    NoMessages(w.hub.pubs, r);
  }

  lemma SpawnedLast(w: World, ev: Event, r: Hub.Sid)
    requires SessionsOk(w) && Enabled(w, ev) && |w.locals| <= r < |Next(w, ev).locals|
    ensures ev.Spawn? && r == |w.hub.actors| && Next(w, ev).locals[r] == Connect(w.clock)
  {
    if IsSession(ev) { NextIs(w, ev); }
    hide LocallyEnabled, Moved;
  }

  lemma TurnsStep(w: World, ev: Event)
    requires Inv(w) && TurnsOk(w) && Enabled(w, ev)
    ensures TurnsOk(Next(w, ev))
  {
    var k := Next(w, ev);
    hide Inv, Next, Enabled, TurnsMatch, TurnsOk;
    forall r | 0 <= r < |k.locals| && At(k, r) ensures TurnsMatch(k, r) {
      if r < |w.locals| {
        TurnsAt(w, ev, r);
      } else {
        NewTurns(w, ev, r);
      }
    }
    Collected(k);
  }

  lemma Collected(k: World)
    requires forall r :: 0 <= r < |k.locals| && At(k, r) ==> TurnsMatch(k, r)
    ensures TurnsOk(k)
  {
  }

  // ----- every run -----

  ghost predicate MessagesOk(w: World) { Inv(w) && CausesOk(w) && TurnsOk(w) }

  lemma {:induction false} MessagesSafety(cfg: Config, now: real, evs: seq<Event>)
    requires ValidRun(Init(cfg, now), evs)
    ensures MessagesOk(Run(Init(cfg, now), evs)) && Run(Init(cfg, now), evs).cfg == cfg
    decreases |evs|
  {
    if evs == [] {
      InitOk(cfg, now);
    } else {
      MessagesSafety(cfg, now, evs[..|evs| - 1]);
      MessagesStep(Run(Init(cfg, now), evs[..|evs| - 1]), evs[|evs| - 1]);
    }
  }

  lemma MessagesStep(w: World, ev: Event)
    requires MessagesOk(w) && Enabled(w, ev)
    ensures MessagesOk(Next(w, ev)) && Next(w, ev).cfg == w.cfg
  {
    InvStep(w, ev);
    assert SessionsOk(w);
    CausesStep(w, ev);
    TurnsStep(w, ev);
    SameConfig(w, ev);
    hide Inv, CausesOk, TurnsOk, Next, Enabled;
  }

  lemma SameConfig(w: World, ev: Event)
    requires Enabled(w, ev)
    ensures Next(w, ev).cfg == w.cfg
  {
    hide LocallyEnabled, HubEvent, Moved, Hub.Next;
  }
}
