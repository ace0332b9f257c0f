/** Sessions handle what their clients send in the order in which it was sent, each thing once
    (server/src/actor/session.rs). */
module ServerReads {
  import opened Wrappers
  import opened Frames
  import opened SessionLoop
  import opened SessionTrace
  import opened ServerMachine
  import opened ServerSessions
  import opened ServerSafety
  import opened ServerMessages
  import opened ServerTheorems
  import opened ServerLives
  import opened ServerRefinesSession
  import Hub = HubMachine
  import HubSafety
  import HubTalk

  /** What was read in these turns. */
  function Inbounds(trace: seq<Beat>): seq<Inbound> {
    if trace == [] then []
    else
      var before, arm := Inbounds(trace[..|trace| - 1]), trace[|trace| - 1].arm;
      if arm.OnRead? then before + [arm.inbound] else before
  }

  /** What has been read and is about to be handled. */
  function InHand(pc: Pc): seq<Inbound> { if pc.Handling? && pc.arm.OnRead? then [pc.arm.inbound] else [] }

  /** Everything read after the first frame has been handled, in order, or is about to be. */
  predicate ReadsOk(l: Local) {
    if l.nread == 0 then l.trace == [] && InHand(l.pc) == []
    else l.nread <= |l.arrived| && Inbounds(l.trace) + InHand(l.pc) == l.arrived[1..l.nread]
  }

  predicate AllReadsOk(w: World) { forall s :: 0 <= s < |w.locals| ==> ReadsOk(w.locals[s]) }

  lemma ReadsSame(l: Local, k: Local)
    requires ReadsOk(l) && l.arrived <= k.arrived && k.nread == l.nread && k.trace == l.trace
    requires InHand(k.pc) == InHand(l.pc)
    ensures ReadsOk(k)
  {
  }

  lemma ReadsHandled(l: Local, now: real, r: Reaction)
    requires ReadsOk(l) && l.pc.Handling? && l.nread > 0
    ensures ReadsOk(AfterHandling(l, now, r))
  {
    var b := Beat(now, l.pc.arm);
    assert (l.trace + [b])[..|l.trace|] == l.trace;
    assert Inbounds(l.trace + [b]) == Inbounds(l.trace) + InHand(l.pc);
    assert Inbounds(l.trace + [b]) + [] == Inbounds(l.trace + [b]);
  }

  lemma ReadsPolled(l: Local, arm: Arm)
    requires ReadsOk(l) && l.pc.Selecting? && l.nread > 0 && (arm.OnRead? ==> NextInbound(l) == Some(arm.inbound))
    ensures ReadsOk(AfterPoll(l, arm))
  {
    if arm.OnRead? {
      assert l.arrived[1..l.nread + 1] == l.arrived[1..l.nread] + [l.arrived[l.nread]];
    }
  }

  lemma ReadsFirst(l: Local)
    requires ReadsOk(l) && l.pc.AwaitHello? && l.nread == 0 < |l.arrived|
    ensures ReadsOk(AfterHello(l))
  {
    hide Judge;
  }

  /** Steps that read nothing and handle nothing. */
  lemma OtherSteps(w: World, ev: Event)
    requires Enabled(w, ev) && IsSession(ev) && At(w, ev.s) && !ev.HelloRead? && !ev.Poll? && !ev.Handle?
    ensures var l, k := w.locals[ev.s], Moved(w, ev);
            && l.arrived <= k.arrived && k.nread == l.nread && k.trace == l.trace
            && InHand(k.pc) == InHand(l.pc)
  {
    hide Enabled, Fits, Reacts, Chosen, WelcomeFrame, AlreadyTaken, Inward;
    StillLocal(w, ev);
  }

  lemma OwnReads(w: World, ev: Event)
    requires Inv(w) && LivesOk(w) && Enabled(w, ev) && IsSession(ev) && At(w, ev.s) && ReadsOk(w.locals[ev.s])
    ensures ReadsOk(Moved(w, ev))
  {
    hide Inv, LivesOk, Enabled, Moved, HubAfter, ReadsOk, AfterHello, AfterPoll, AfterHandling;
    if ev.HelloRead? {
      FirstToRead(w, ev.s);
      HelloEffect(w, ev.s);
      ReadsFirst(w.locals[ev.s]);
    } else if ev.Poll? {
      PollEffect(w, ev.s, ev.tick);
      ReadBefore(w, ev.s);
      ReadsPolled(w.locals[ev.s], Chosen(w, ev.s, ev.tick).value);
    } else if ev.Handle? {
      HandleEffect(w, ev.s);
      ReadBefore(w, ev.s);
      ReadsHandled(w.locals[ev.s], w.clock, Reacts(w, ev.s, w.locals[ev.s].pc.arm));
    } else {
      OtherSteps(w, ev);
      ReadsSame(w.locals[ev.s], Moved(w, ev));
    }
  }

  lemma FirstToRead(w: World, s: Hub.Sid)
    requires LivesOk(w) && Enabled(w, HelloRead(s))
    ensures At(w, s) && w.locals[s].pc.AwaitHello? && w.locals[s].nread == 0
  {
    hide LoopOk, LastWord, Judge, AnswerTo;
    assert LifeOk(w.cfg, w.locals[s], w.hub.actors[s], HubTalk.SessionTalk(w.hub.pubs, s));
  }

  /** A session in its loop has read its Hello. */
  lemma ReadBefore(w: World, s: Hub.Sid)
    requires Inv(w) && LivesOk(w) && At(w, s)
    requires w.locals[s].pc.Selecting? || w.locals[s].pc.Handling?
    ensures w.locals[s].nread > 0
  {
    hide LoopOk, LastWord, Judge, AnswerTo, HubSafety.Inv, PubsOrdinary, MailOk, TraceOk, ReadOk, ValidateUsername;
    assert SessionOk(w.cfg, w.locals[s], w.hub.actors[s], w.clock);
    assert LifeOk(w.cfg, w.locals[s], w.hub.actors[s], HubTalk.SessionTalk(w.hub.pubs, s));
  }

  lemma ReadsStep(w: World, ev: Event)
    requires Inv(w) && LivesOk(w) && AllReadsOk(w) && Enabled(w, ev)
    ensures AllReadsOk(Next(w, ev))
  {
    hide Inv, LivesOk, Enabled, Next, Moved, HubAfter, ReadsOk;
    if IsSession(ev) {
      NextIs(w, ev);
      OwnReads(w, ev);
    } else {
      ServerReason(w, ev);
      NothingRead(w.clock);
    }
  }

  lemma NothingRead(now: real)
    ensures ReadsOk(Connect(now))
  {
  }

  lemma {:induction false} ReadsSafety(cfg: Config, now: real, evs: seq<Event>)
    requires ValidRun(Init(cfg, now), evs)
    ensures AllReadsOk(Run(Init(cfg, now), evs))
    decreases |evs|
  {
    hide Inv, LivesOk, Enabled, Next, ReadsOk;
    if evs != [] {
      var front := evs[..|evs| - 1];
      ReadsSafety(cfg, now, front);
      Safety(cfg, now, front);
      LivesSafety(cfg, now, front);
      ReadsStep(Run(Init(cfg, now), front), evs[|evs| - 1]);
    }
  }

  /** In every reachable state each session has handled, in its turns and in order, exactly what it
      has read after its first frame, but for the one thing it may be about to handle. */
  lemma EverythingIsReadInOrder(cfg: Config, w: World, s: Hub.Sid)
    requires Reachable(cfg, w) && s < |w.locals|
    ensures var l := w.locals[s];
            if l.nread == 0 then l.trace == []
            else l.nread <= |l.arrived| && Inbounds(l.trace) + InHand(l.pc) == l.arrived[1..l.nread]
  {
    hide Enabled, Next;
    var now, evs :| ValidRun(Init(cfg, now), evs) && Run(Init(cfg, now), evs) == w;
    ReadsSafety(cfg, now, evs);
  }
}
