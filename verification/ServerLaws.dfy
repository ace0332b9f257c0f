/** What the server machine may do and must do, said outright: the environment's freedom, the
    timeouts, the handshake and the order in which a session serves what is ready
    (server/src/lib.rs, server/src/actor/session.rs). */
module ServerLaws {
  import opened Wrappers
  import opened Utf8
  import opened Frames
  import opened Codec
  import opened SessionLoop
  import opened SessionTrace
  import opened SessionLaws
  import opened ServerMachine
  import opened ServerSessions
  import opened ServerSafety
  import opened ServerMessages
  import opened ServerTheorems
  import opened ServerShutdown
  import opened ServerDrain
  import opened ServerLives
  import Hub = HubMachine
  import HubRegistry
  import HubBroadcasts
  import HubSafety

  // ----- freedom -----

  /** Time may pass to any later moment; shutdown may come once, at any time; a client may send any
      payload of at most 8192 bytes or hang up, as long as its stream has not ended; and a listening
      server accepts or fails unless it is cancelled, and else stops. */
  lemma EnvironmentIsFree(w: World, s: Hub.Sid, t: real, payload: Bytes)
    requires At(w, s)
    ensures Enabled(w, Advance(t)) <==> t >= w.clock
    ensures Enabled(w, Cancel) <==> !w.cancelled
    ensures Enabled(w, Arrive(s, payload)) <==>
      |payload| <= 8192 && forall i :: 0 <= i < |w.locals[s].arrived| ==> w.locals[s].arrived[i].Frame?
    ensures Enabled(w, Hangup(s)) <==>
      forall i :: 0 <= i < |w.locals[s].arrived| ==> w.locals[s].arrived[i].Frame?
    ensures Enabled(w, AcceptReady) <==> w.server.Listening? && !w.cancelled
    ensures Enabled(w, AcceptError) <==> w.server.Listening? && !w.cancelled
    ensures Enabled(w, StopListening) <==> w.server.Listening? && w.cancelled
  {
  }

  /** A new session begins at the present moment, before its Hello, with nothing read or written. */
  lemma SpawnStartsFresh(w: World)
    requires Enabled(w, Spawn)
    ensures var k := Next(w, Spawn);
            && |k.locals| == |w.locals| + 1
            && var l := k.locals[|w.locals|];
               && l.pc.AwaitHello? && l.born == w.clock && l.nread == 0
               && l.arrived == [] && l.wire == [] && l.torn.None? && l.trace == []
  {
  }

  /** The loop begins when Joined has been broadcast, and every turn is recorded at its moment. */
  lemma ClockIsRecorded(w: World, s: Hub.Sid)
    ensures Enabled(w, EndCast(s)) && w.locals[s].pc.Announcing? ==>
      s < |Next(w, EndCast(s)).locals|
      && Next(w, EndCast(s)).locals[s].pc.Selecting? && Next(w, EndCast(s)).locals[s].start == w.clock
    ensures Enabled(w, Handle(s)) ==>
      s < |Next(w, Handle(s)).locals|
      && Next(w, Handle(s)).locals[s].trace == w.locals[s].trace + [Beat(w.clock, w.locals[s].pc.arm)]
  {
    hide Enabled, Next;
    if Enabled(w, EndCast(s)) {
      NextIs(w, EndCast(s));
      LoopBegins(w, s);
    }
    if Enabled(w, Handle(s)) {
      NextIs(w, Handle(s));
      ServerMessages.HandleMoves(w, s);
    }
  }

  lemma LoopBegins(w: World, s: Hub.Sid)
    requires Enabled(w, EndCast(s))
    ensures At(w, s)
    ensures w.locals[s].pc.Announcing? ==> Moved(w, EndCast(s)) == w.locals[s].(pc := Selecting, start := w.clock)
  {
    hide Hub.Finished;
  }

  /** Whatever a session is writing may be written whole, or fail after any number of its bytes. */
  lemma WritesMayEnd(cfg: Config, w: World, s: Hub.Sid, bytes: nat)
    requires Reachable(cfg, w) && s < |w.locals| && Writing(w.locals[s].pc).Some?
    requires bytes < |WireOf(Writing(w.locals[s].pc).value.frame)|
    ensures Enabled(w, WriteDone(s)) && Enabled(w, WriteFail(s, bytes))
  {
    hide Reachable, Inv, MessagesOk, LocalOk, HubRegistry.RegistryOk, HubBroadcasts.ItersOk, ValidateUsername,
      ServerPayload;
    ReachableIsSafe(cfg, w);
    MessagesInv(w);
    SessionParts(w, s);
    assert HubEvent(w, WriteFail(s, bytes)).Some? ==> Hub.Enabled(w.hub, Hub.GiveUp(s));
  }

  // ----- timeouts -----

  /** A client that says nothing may be dropped exactly from the moment its Hello timeout is over. */
  lemma HelloTimeoutFires(w: World, s: Hub.Sid)
    requires At(w, s) && w.locals[s].pc.AwaitHello?
    ensures Enabled(w, HelloTimeout(s)) <==>
      && !w.cancelled && |w.locals[s].arrived| <= w.locals[s].nread
      && w.clock >= w.locals[s].born + w.cfg.helloTimeout
    ensures Enabled(w, HelloTimeout(s)) ==>
      s < |Next(w, HelloTimeout(s)).locals| && Next(w, HelloTimeout(s)).locals[s] == w.locals[s].(pc := Ended)
  {
  }

  /** The goodbye may be cut off, after any number of its bytes, exactly from the moment its time is
      over; no other write ever may. */
  lemma GoodbyeTimeoutFires(w: World, s: Hub.Sid, bytes: nat)
    requires At(w, s) && Writing(w.locals[s].pc).Some? && Fits(Writing(w.locals[s].pc).value.frame)
    ensures Enabled(w, CutOff(s, bytes)) <==>
      var l := w.locals[s];
      && l.pc.Replying? && bytes < |WireOf(l.pc.frame)|
      && l.trace != [] && l.trace[|l.trace| - 1].arm == OnShutdown
      && w.clock >= l.trace[|l.trace| - 1].at + w.cfg.goodbyeTimeout
  {
    hide ServerPayload;
  }

  // ----- the handshake -----

  /** A client's payload becomes a frame if it parses and garbage if not, the end of its stream is
      noticed, and nothing is added, dropped or turned round on the way to the reader. */
  lemma ArrivalsAreDecoded(w: World, s: Hub.Sid, payload: Bytes)
    requires Enabled(w, Arrive(s, payload)) && Enabled(w, Hangup(s))
    ensures At(w, s) && At(Next(w, Arrive(s, payload)), s) && At(Next(w, Hangup(s)), s)
    ensures Next(w, Arrive(s, payload)).locals[s].arrived
         == w.locals[s].arrived + [match ParseClient(payload) case Ok(f) => Frame(f) case Err(_) => Garbage]
    ensures Next(w, Hangup(s)).locals[s].arrived == w.locals[s].arrived + [Eof]
  {
    hide ParseClient;
  }

  /** While a session waits for its Hello, shutdown ends it whatever has arrived, and without a
      shutdown the oldest arrival is read. */
  lemma HelloInOrder(cfg: Config, w: World, s: Hub.Sid)
    requires Reachable(cfg, w) && s < |w.locals| && w.locals[s].pc.AwaitHello?
    ensures Enabled(w, HelloShutdown(s)) <==> w.cancelled
    ensures Enabled(w, HelloShutdown(s)) ==>
      Next(w, HelloShutdown(s)).locals == w.locals[s := w.locals[s].(pc := Ended)]
    ensures Enabled(w, HelloRead(s)) <==> !w.cancelled && w.locals[s].nread < |w.locals[s].arrived|
  {
    hide Reachable, Inv, MessagesOk, Judge, ValidateUsername;
    ReachableIsSafe(cfg, w);
    MessagesInv(w);
    SameNumbers(w);
    LinkedAt(w, s);
  }

  /** The first thing read decides: a Hello of version 1 with a valid name goes on to register it,
      any other frame is refused, and anything else ends the session. */
  lemma HelloDecides(w: World, s: Hub.Sid)
    requires Enabled(w, HelloRead(s))
    ensures At(w, s) && At(Next(w, HelloRead(s)), s) && w.locals[s].nread < |w.locals[s].arrived|
    ensures var x, k := w.locals[s].arrived[w.locals[s].nread], Next(w, HelloRead(s));
            && k.locals[s].nread == w.locals[s].nread + 1
            && if x.Frame? && x.frame.Hello? && x.frame.version == 1 && IsName(x.frame.username) then
                 k.locals[s].pc.Registering? && Named(k, s) && NameOf(k, s) == x.frame.username
               else if x.Frame? then k.locals[s].pc.Refusing? && k.locals[s].pc.frame.Rejected?
               else k.locals[s].pc.Ended?
  {
    hide Enabled, Next, HubAfter, Moved, Judge, IsName, ValidateUsername;
    NextIs(w, HelloRead(s));
    HelloEffect(w, s);
    var x := w.locals[s].arrived[w.locals[s].nread];
    if x.Frame? { JudgedRightly(x.frame); }
  }

  lemma JudgedRightly(f: ClientFrame)
    ensures if f.Hello? && f.version == 1 && IsName(f.username) then Judge(f) == Accept(f.username)
            else Judge(f).Refuse? && Judge(f).frame.Rejected?
  {
    hide ValidateUsername, IsName, Describe, Decimal;
    if f.Hello? { NamesAreValid(f.username); }
  }

  /** A name is taken if and only if it is in the map; a free one becomes the session's. */
  lemma RegisterDecides(w: World, s: Hub.Sid)
    requires Enabled(w, Register(s))
    ensures Named(w, s) && At(Next(w, Register(s)), s)
    ensures var name, k := NameOf(w, s), Next(w, Register(s));
            if name in w.hub.registry then
              && k.locals[s].pc.Refusing? && k.locals[s].pc.frame.Rejected? && k.hub.registry == w.hub.registry
            else
              && k.locals[s].pc.Counting? && Hub.HolderOf(k.hub, name) == Some(s)
              && k.hub.registry.Keys == w.hub.registry.Keys + {name}
  {
    hide AlreadyTaken;
  }

  /** Welcome greets the user by name, and carries the hub's count as it is at that moment. */
  lemma GreetSays(w: World, s: Hub.Sid)
    requires Enabled(w, Greet(s))
    ensures Named(w, s) && At(Next(w, Greet(s)), s)
    ensures var k := Next(w, Greet(s));
            && k.hub == w.hub && k.locals[s].pc.Greeting?
            && k.locals[s].pc.frame.Welcome?
            && k.locals[s].pc.frame.motd == [119, 101, 108, 99, 111, 109, 101, 44, 32] + NameOf(w, s) + [46]
            && k.locals[s].pc.frame.occupancy
               == if 0 <= w.hub.occupancy < 0x1_0000_0000 then w.hub.occupancy else 0xFFFF_FFFF
  {
    hide Enabled, Next, HubAfter, Moved, Welcoming, Fits;
    NextIs(w, Greet(s));
    GreetEffect(w, s);
    GreetedIsNamed(w, s);
    Banner(NameOf(w, s));
  }

  // ----- priorities -----

  /** At its select a session serves, in this order: the shutdown, the oldest frame not yet read, the
      oldest frame in its mailbox, the timer. It waits if and only if there is none of these. */
  lemma SelectInOrder(cfg: Config, w: World, s: Hub.Sid, tick: bool)
    requires Reachable(cfg, w) && s < |w.locals| && w.locals[s].pc.Selecting?
    ensures At(w, s)
    ensures var l, m := w.locals[s], w.hub.actors[s].mail;
            && m.taken <= |m.enq|
            && (Enabled(w, Poll(s, tick)) <==> w.cancelled || l.nread < |l.arrived| || m.taken < |m.enq| || tick)
            && (Enabled(w, Poll(s, tick)) ==>
                  && s < |Next(w, Poll(s, tick)).locals|
                  && Next(w, Poll(s, tick)).locals[s].pc
                     == Handling(if w.cancelled then OnShutdown
                                 else if l.nread < |l.arrived| then OnRead(l.arrived[l.nread])
                                 else if m.taken < |m.enq| then OnMail(Some(m.enq[m.taken].frame))
                                 else OnTick))
  {
    hide Reachable, Enabled, Next, Moved, HubAfter;
    MailboxAccounts(cfg, w, s);
    SelectingIsOpen(cfg, w, s);
    ChosenInOrder(w, s, tick);
    PollMayCome(w, s, tick);
    if Enabled(w, Poll(s, tick)) {
      NextIs(w, Poll(s, tick));
      PollEffect(w, s, tick);
    }
  }

  lemma SelectingIsOpen(cfg: Config, w: World, s: Hub.Sid)
    requires Reachable(cfg, w) && s < |w.locals| && w.locals[s].pc.Selecting?
    ensures At(w, s) && w.hub.actors[s].stage.Open?
  {
    hide Reachable, Inv, MessagesOk;
    ReachableIsSafe(cfg, w);
    MessagesInv(w);
    SameNumbers(w);
    LinkedAt(w, s);
  }

  lemma ChosenInOrder(w: World, s: Hub.Sid, tick: bool)
    requires Named(w, s) && NextMail(w, s) != Some(None)
    ensures var l, m := w.locals[s], w.hub.actors[s].mail;
            Chosen(w, s, tick)
            == if w.cancelled then Some(OnShutdown)
               else if l.nread < |l.arrived| then Some(OnRead(l.arrived[l.nread]))
               else if m.taken < |m.enq| then Some(OnMail(Some(m.enq[m.taken].frame)))
               else if tick then Some(OnTick)
               else None
  {
  }

  lemma PollMayCome(w: World, s: Hub.Sid, tick: bool)
    requires Named(w, s) && w.locals[s].pc.Selecting? && w.hub.actors[s].stage.Open?
    requires w.hub.actors[s].mail.taken <= |w.hub.actors[s].mail.enq|
    ensures Enabled(w, Poll(s, tick)) <==> Chosen(w, s, tick).Some?
  {
  }

  // ----- broadcasts -----

  /** A broadcast may visit any entry that it has not, whether it was there at the beginning or has
      come since, gone again or not; and it may end when it has seen all that were there at the
      beginning and still are. */
  lemma IteratorIsFree(h: Hub.Hub, s: Hub.Sid, i: nat)
    requires HubSafety.Reachable(h) && Hub.At(h, s) && Hub.Casting(h.actors[s].stage)
    ensures Hub.Enabled(h, Hub.Visit(s, i)) <==>
      && (i in h.actors[s].stage.it.start || h.actors[s].stage.it.from <= i < |h.claims|)
      && i !in h.actors[s].stage.it.seen
    ensures Hub.Enabled(h, Hub.EndCast(s)) <==>
      forall j :: j in h.actors[s].stage.it.start && Hub.Present(h, j) ==> j in h.actors[s].stage.it.seen
  {
    hide HubSafety.Reachable, HubRegistry.RegistryOk, Hub.Present;
    CastFacts(h, s);
  }

  lemma CastFacts(h: Hub.Hub, s: Hub.Sid)
    requires HubSafety.Reachable(h) && Hub.At(h, s) && Hub.Casting(h.actors[s].stage)
    ensures var it := h.actors[s].stage.it;
            && h.actors[s].key.Some? && it.pub < |h.pubs| && it.from <= |h.claims|
            && forall i :: i in it.start ==> i < it.from
    ensures forall i :: 0 <= i < |h.claims| ==> Hub.At(h, h.claims[i].addr)
  {
    hide HubSafety.Reachable, HubRegistry.RegistryOk, HubBroadcasts.CastsOk;
    HubSafety.ReachableParts(h);
    IterFacts(h, s);
    EntryFacts(h);
  }

  lemma IterFacts(h: Hub.Hub, s: Hub.Sid)
    requires HubRegistry.RegistryOk(h) && HubBroadcasts.CastsOk(h) && Hub.At(h, s) && Hub.Casting(h.actors[s].stage)
    ensures var it := h.actors[s].stage.it;
            && h.actors[s].key.Some? && it.pub < |h.pubs| && it.from <= |h.claims|
            && forall i :: i in it.start ==> i < it.from
  {
    hide HubRegistry.ClaimsOk, HubRegistry.MapOk, Hub.Present;
    assert HubBroadcasts.IterOk(h, s, h.actors[s].stage.it);
  }

  lemma EntryFacts(h: Hub.Hub)
    requires HubRegistry.RegistryOk(h)
    ensures forall i :: 0 <= i < |h.claims| ==> Hub.At(h, h.claims[i].addr)
  {
    hide HubRegistry.KeysOk, HubRegistry.MapOk;
  }
}
