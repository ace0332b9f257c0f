/** The drain after cancellation: nothing gets stuck, little more is said, and nothing is left. */
module ServerDrain {
  import opened Wrappers
  import opened Frames
  import opened SessionLoop
  import opened SessionTrace
  import opened ServerMachine
  import opened ServerSessions
  import opened ServerSafety
  import opened ServerMessages
  import opened ServerTheorems
  import opened ServerShutdown
  import HubTalk
  import Hub = HubMachine
  import HubRegistry
  import HubOccupancy
  import HubBroadcasts
  import HubSafety

  // ----- nothing gets stuck -----

  /** A step of the session's own program is possible. */
  ghost predicate CanMove(w: World, s: Hub.Sid) {
    exists ev: Event :: IsSession(ev) && !FromOutside(ev) && ev.s == s && Enabled(w, ev)
  }

  /** The session waits for its client, its mailbox or its timer. */
  predicate Waiting(w: World, s: Hub.Sid)
    requires Named(w, s) || (At(w, s) && !w.locals[s].pc.Selecting?)
  {
    var l := w.locals[s];
    || (l.pc.AwaitHello? && !w.cancelled)
    || (l.pc.Selecting? && Chosen(w, s, false).None?)
  }

  /** A broadcast in progress can visit another entry, or is over. */
  lemma HubCastMoves(h: Hub.Hub, s: Hub.Sid)
    requires HubRegistry.RegistryOk(h) && HubBroadcasts.ItersOk(h) && Hub.At(h, s) && Hub.Casting(h.actors[s].stage)
    ensures Hub.Enabled(h, Hub.EndCast(s)) || exists i :: Hub.Enabled(h, Hub.Visit(s, i))
  {
    var it := h.actors[s].stage.it;
    assert HubBroadcasts.IterOk(h, s, it);
    if !Hub.Finished(h, it) {
      var i :| i in it.start && Hub.Present(h, i) && i !in it.seen;
      assert Hub.Enabled(h, Hub.Visit(s, i));
    }
  }

  lemma CastMoves(w: World, s: Hub.Sid)
    requires HubRegistry.RegistryOk(w.hub) && HubBroadcasts.ItersOk(w.hub) && At(w, s)
    requires w.locals[s].pc.Announcing? || w.locals[s].pc.Relaying? || w.locals[s].pc.Leaving?
    requires Hub.Casting(w.hub.actors[s].stage)
    ensures CanMove(w, s)
  {
    hide HubRegistry.RegistryOk, HubBroadcasts.ItersOk, Hub.Enabled, CanMove;
    HubCastMoves(w.hub, s);
    if Hub.Enabled(w.hub, Hub.EndCast(s)) {
      Moves(w, EndCast(s));
    } else {
      var i :| Hub.Enabled(w.hub, Hub.Visit(s, i));
      Moves(w, Visit(s, i));
    }
  }

  lemma WriteMoves(w: World, s: Hub.Sid)
    requires At(w, s) && Writing(w.locals[s].pc).Some?
    ensures CanMove(w, s)
  {
    assert LocallyEnabled(w, WriteDone(s)) && HubEvent(w, WriteDone(s)).None?;
    assert Enabled(w, WriteDone(s));
  }

  lemma HandshakeMoves(w: World, s: Hub.Sid)
    requires At(w, s) && Linked(w.locals[s].pc, w.hub.actors[s].stage) && w.hub.actors[s].key.Some?
    requires Fits(WelcomeFrame(NameOf(w, s), w.hub.occupancy)) && Fits(Joined(NameOf(w, s)))
    requires w.locals[s].pc.Registering? || w.locals[s].pc.Counting? || w.locals[s].pc.Reading?
          || (w.locals[s].pc.Announcing? && w.hub.actors[s].stage.Silent?)
    ensures CanMove(w, s)
  {
    hide Fits, WelcomeFrame, CanMove;
    if w.locals[s].pc.Registering? { Moves(w, Register(s)); }
    else if w.locals[s].pc.Counting? { Moves(w, CountUp(s)); }
    else if w.locals[s].pc.Reading? { Moves(w, Greet(s)); }
    else { Moves(w, BeginJoined(s)); }
  }

  lemma Moves(w: World, ev: Event)
    requires IsSession(ev) && !FromOutside(ev) && Enabled(w, ev)
    ensures CanMove(w, ev.s)
  {
    hide Enabled;
  }

  lemma CleanupMoves(w: World, s: Hub.Sid)
    requires At(w, s) && Linked(w.locals[s].pc, w.hub.actors[s].stage)
    requires w.hub.actors[s].key.Some? && Fits(Departed(NameOf(w, s)))
    requires w.locals[s].pc.Releasing? || w.locals[s].pc.Uncounting? || w.locals[s].pc.Dropping?
          || (w.locals[s].pc.Leaving? && w.hub.actors[s].stage.Open?)
    ensures CanMove(w, s)
  {
    hide Fits, CanMove;
    if w.locals[s].pc.Releasing? { Moves(w, Release(s)); }
    else if w.locals[s].pc.Uncounting? { Moves(w, CountDown(s)); }
    else if w.locals[s].pc.Dropping? { Moves(w, Drop(s)); }
    else { Moves(w, BeginDeparted(s)); }
  }

  /** What the loop is about to encode always fits, so no encoding in it fails. */
  lemma HandleCanMove(w: World, s: Hub.Sid)
    requires At(w, s) && w.locals[s].pc.Handling? && w.hub.actors[s].stage.Open?
    requires w.hub.actors[s].key.Some? && ValidName(NameOf(w, s)) && LocalOk(w.locals[s])
    ensures CanMove(w, s)
  {
    hide CanMove, Enabled;
    HandleIsNext(w, s);
    HandleMayPublish(w, s);
    Moves(w, Handle(s));
  }

  lemma HandleIsNext(w: World, s: Hub.Sid)
    requires At(w, s) && w.locals[s].pc.Handling? && w.hub.actors[s].key.Some?
    requires ValidName(NameOf(w, s)) && LocalOk(w.locals[s])
    ensures LocallyEnabled(w, Handle(s))
  {
    hide Fits, ValidateUsername, React, FromWire, VarsAfter;
    var l, me := w.locals[s], NameOf(w, s);
    ArmsFit(l);
    ReactionFits(w.cfg, me, VarsAfter(w.cfg, me, l.start, l.trace), w.clock, l.pc.arm);
  }

  lemma ArmsFit(l: Local)
    requires LocalOk(l) && l.pc.Handling?
    ensures ArmFits(l.pc.arm)
  {
    hide FromWire;
  }

  lemma HandleMayPublish(w: World, s: Hub.Sid)
    requires LocallyEnabled(w, Handle(s)) && w.hub.actors[s].stage.Open?
    ensures Enabled(w, Handle(s))
  {
    hide Fits, React, VarsAfter, ValidateBody;
    var l, me := w.locals[s], NameOf(w, s);
    BroadcastIsMessage(w.cfg, me, VarsAfter(w.cfg, me, l.start, l.trace), w.clock, l.pc.arm);
  }

  lemma PollMoves(w: World, s: Hub.Sid)
    requires Named(w, s) && w.locals[s].pc.Selecting? && w.hub.actors[s].stage.Open? && Chosen(w, s, false).Some?
    ensures CanMove(w, s)
  {
    assert LocallyEnabled(w, Poll(s, false));
    assert Enabled(w, Poll(s, false));
  }

  lemma HelloMoves(w: World, s: Hub.Sid)
    requires At(w, s) && w.locals[s].pc.AwaitHello? && w.cancelled
    ensures CanMove(w, s)
  {
    assert Enabled(w, HelloShutdown(s));
  }

  /** The facts of a session on which its next step depends. */
  lemma SessionParts(w: World, s: Hub.Sid)
    requires Inv(w) && s < |w.locals|
    ensures At(w, s) && Linked(w.locals[s].pc, w.hub.actors[s].stage) && LocalOk(w.locals[s])
    ensures HubRegistry.RegistryOk(w.hub) && HubBroadcasts.ItersOk(w.hub)
    ensures w.hub.actors[s].key.None? ==> w.hub.actors[s].stage.Idle?
    ensures w.hub.actors[s].key.Some? ==> ValidName(NameOf(w, s))
  {
    HubParts(w.hub);
    assert SessionOk(w.cfg, w.locals[s], w.hub.actors[s], w.clock);
    hide HubSafety.Inv, SessionsOk, PubsOrdinary, LocalOk, MailOk, TraceOk, ValidateUsername;
  }

  /** A session that has not ended and is not waiting can always take its next step: in particular
      every frame it is about to encode fits, and every hub operation it is about to perform is
      possible. After cancellation no session waits. */
  lemma SessionNeverStuck(cfg: Config, w: World, s: Hub.Sid)
    requires Reachable(cfg, w) && s < |w.locals| && !w.locals[s].pc.Ended?
    ensures Named(w, s) || (At(w, s) && !w.locals[s].pc.Selecting?)
    ensures !Waiting(w, s) ==> CanMove(w, s)
    ensures w.cancelled ==> !Waiting(w, s)
  {
    hide Reachable, Inv, CausesOk, TurnsOk, CanMove, LocalOk, HubRegistry.RegistryOk, HubBroadcasts.ItersOk,
      ValidateUsername, NextMail, Fits, Hub.NameOf, WelcomeFrame, AlreadyTaken;
    ReachableIsSafe(cfg, w);
    SessionParts(w, s);
    if w.hub.actors[s].key.Some? { NameFramesFit(NameOf(w, s), w.hub.occupancy); }
    var pc, st := w.locals[s].pc, w.hub.actors[s].stage;
    if pc.AwaitHello? {
      if w.cancelled { HelloMoves(w, s); }
    } else if Writing(pc).Some? {
      WriteMoves(w, s);
    } else if pc.Selecting? {
      if Chosen(w, s, false).Some? { PollMoves(w, s); }
    } else if pc.Handling? {
      HandleCanMove(w, s);
    } else if Hub.Casting(st) {
      CastMoves(w, s);
    } else if pc.Releasing? || pc.Uncounting? || pc.Dropping? || pc.Leaving? {
      CleanupMoves(w, s);
    } else {
      HandshakeMoves(w, s);
    }
  }

  /** After cancellation the server can always take a step until it has returned. */
  lemma ShutdownNeverStuck(cfg: Config, w: World)
    requires Reachable(cfg, w) && w.cancelled && !w.server.Returned?
    ensures exists ev :: Enabled(w, ev) && !FromOutside(ev)
  {
    hide Reachable, Waiting;
    if s :| 0 <= s < |w.locals| && !w.locals[s].pc.Ended? {
      SessionNeverStuck(cfg, w, s);
    } else {
      AcceptLoopCanMove(w);
    }
  }

  lemma AcceptLoopCanMove(w: World)
    requires w.cancelled && !w.server.Returned? && AllEnded(w)
    ensures exists ev :: Enabled(w, ev) && !FromOutside(ev)
  {
    var ev := if w.server.Listening? then StopListening else if w.server.Spawning? then Spawn else Return;
    assert Enabled(w, ev);
  }

  // ----- what shutdown waits for -----

  /** A step of the session's own program is possible without its pending write completing or
      failing. */
  ghost predicate MovesUnaided(w: World, s: Hub.Sid) {
    exists ev: Event ::
      IsSession(ev) && !FromOutside(ev) && !ev.WriteDone? && !ev.WriteFail? && ev.s == s && Enabled(w, ev)
  }

  lemma OnlyTheWrite(w: World, ev: Event)
    requires Enabled(w, ev) && IsSession(ev) && !FromOutside(ev) && At(w, ev.s) && Writing(w.locals[ev.s].pc).Some?
    ensures || ev.WriteDone? || ev.WriteFail?
            || (ev.CutOff? && Goodbye(w.locals[ev.s]) && GoodbyeIsOver(w, w.locals[ev.s]))
  {
    hide Fits, Reacts, Chosen, Hub.Enabled;
  }

  lemma WritesAreWrites(w: World, ev: Event)
    requires Enabled(w, ev) && (ev.WriteDone? || ev.WriteFail?)
    ensures At(w, ev.s) && Writing(w.locals[ev.s].pc).Some?
  {
  }

  /** Which sessions a shutdown can move by itself. After cancellation a session that has not ended
      can go on unaided if and only if it is not writing, or is writing the goodbye and its time is
      over. Writing Rejected, Welcome, a mailbox frame, an answer, a ping or any other last word, it
      cannot, cancelled or not. */
  lemma ShutdownRacesOnlyGoodbye(cfg: Config, w: World, s: Hub.Sid)
    requires Reachable(cfg, w) && w.cancelled && s < |w.locals| && !w.locals[s].pc.Ended?
    ensures MovesUnaided(w, s)
       <==> Writing(w.locals[s].pc).None? || (Goodbye(w.locals[s]) && GoodbyeIsOver(w, w.locals[s]))
  {
    hide Reachable, Enabled, Waiting;
    SessionNeverStuck(cfg, w, s);
    var l := w.locals[s];
    var moving: Event :| IsSession(moving) && !FromOutside(moving) && moving.s == s && Enabled(w, moving);
    if Writing(l.pc).None? {
      if moving.WriteDone? || moving.WriteFail? { WritesAreWrites(w, moving); }
    } else if Goodbye(l) && GoodbyeIsOver(w, l) {
      CutOffMayCome(w, s);
    }
    if MovesUnaided(w, s) && Writing(l.pc).Some? {
      var ev: Event :|
        IsSession(ev) && !FromOutside(ev) && !ev.WriteDone? && !ev.WriteFail? && ev.s == s && Enabled(w, ev);
      OnlyTheWrite(w, ev);
    }
  }

  lemma CutOffMayCome(w: World, s: Hub.Sid)
    requires At(w, s) && Goodbye(w.locals[s]) && GoodbyeIsOver(w, w.locals[s])
    ensures Enabled(w, CutOff(s, 0))
  {
  }

  /** With time alone: a session gets going again at some later moment if and only if it is not
      writing, or is writing the goodbye. */
  lemma TimeFreesOnlyGoodbye(cfg: Config, w: World, s: Hub.Sid)
    requires Reachable(cfg, w) && w.cancelled && s < |w.locals| && !w.locals[s].pc.Ended?
    ensures (exists t :: Enabled(w, Advance(t)) && MovesUnaided(Next(w, Advance(t)), s))
       <==> Writing(w.locals[s].pc).None? || Goodbye(w.locals[s])
  {
    hide Reachable, MovesUnaided, Enabled;
    var l := w.locals[s];
    forall t | Enabled(w, Advance(t))
      ensures MovesUnaided(Next(w, Advance(t)), s)
         <==> Writing(l.pc).None? || (Goodbye(l) && t >= l.trace[|l.trace| - 1].at + w.cfg.goodbyeTimeout)
    {
      ClockMoves(w, t);
      OneStepFurther(cfg, w, Advance(t));
      ShutdownRacesOnlyGoodbye(cfg, Next(w, Advance(t)), s);
    }
    if Writing(l.pc).None? || Goodbye(l) {
      var over := if Goodbye(l) then l.trace[|l.trace| - 1].at + w.cfg.goodbyeTimeout else w.clock;
      var t := if over >= w.clock then over else w.clock;
      ClockMayMove(w, t);
      assert MovesUnaided(Next(w, Advance(t)), s);
    }
  }

  lemma ClockMayMove(w: World, t: real)
    requires t >= w.clock
    ensures Enabled(w, Advance(t))
  {
  }

  lemma ClockMoves(w: World, t: real)
    requires Enabled(w, Advance(t))
    ensures Next(w, Advance(t)) == w.(clock := t)
  {
  }

  lemma OneStepFurther(cfg: Config, w: World, ev: Event)
    requires Reachable(cfg, w) && Enabled(w, ev)
    ensures Reachable(cfg, Next(w, ev))
  {
    hide Enabled, Next;
    var now, evs :| ValidRun(Init(cfg, now), evs) && Run(Init(cfg, now), evs) == w;
    var longer := evs + [ev];
    assert longer[..|evs|] == evs;
    assert ValidRun(Init(cfg, now), longer) && Run(Init(cfg, now), longer) == Next(w, ev);
  }

  /** The events that end a pending write of `s`. */
  predicate EndsWrite(ev: Event, s: Hub.Sid) { (ev.WriteDone? || ev.WriteFail?) && ev.s == s }

  predicate Held(w: World, s: Hub.Sid) {
    s < |w.locals| && Writing(w.locals[s].pc).Some? && !Goodbye(w.locals[s]) && !w.server.Returned?
  }

  lemma HeldStep(w: World, s: Hub.Sid, ev: Event)
    requires Inv(w) && Held(w, s) && Enabled(w, ev) && !EndsWrite(ev, s)
    ensures Held(Next(w, ev), s) && Next(w, ev).locals[s].pc == w.locals[s].pc
  {
    hide HubSafety.Inv, PubsOrdinary, SessionOk, Enabled, Next, Moved, HubAfter;
    if IsSession(ev) {
      NextIs(w, ev);
      if ev.s == s {
        if FromOutside(ev) { Delivered(w, ev); } else { OnlyTheWrite(w, ev); }
      }
    } else {
      ServerHolds(w, s, ev);
    }
  }

  lemma Delivered(w: World, ev: Event)
    requires Enabled(w, ev) && IsSession(ev) && FromOutside(ev)
    ensures At(w, ev.s) && Moved(w, ev).pc == w.locals[ev.s].pc && Moved(w, ev).trace == w.locals[ev.s].trace
  {
    hide ParseClient;
  }

  lemma ServerHolds(w: World, s: Hub.Sid, ev: Event)
    requires Held(w, s) && Enabled(w, ev) && !IsSession(ev)
    ensures s < |Next(w, ev).locals| && Next(w, ev).locals[s] == w.locals[s] && !Next(w, ev).server.Returned?
  {
    hide Hub.Next, Hub.Enabled;
  }

  /** Not every wait of a session races the shutdown. In any run in which a pending write other than
      the goodbye neither completes nor fails, `serve` does not return, though it be cancelled and
      however much time goes by. */
  lemma {:induction false} PendingWriteHoldsServer(cfg: Config, w: World, s: Hub.Sid, evs: seq<Event>)
    requires Reachable(cfg, w) && Held(w, s) && ValidRun(w, evs)
    requires forall i :: 0 <= i < |evs| ==> !EndsWrite(evs[i], s)
    ensures Reachable(cfg, Run(w, evs)) && Held(Run(w, evs), s) && Run(w, evs).locals[s].pc == w.locals[s].pc
    decreases |evs|
  {
    hide Reachable, Enabled, Next, Held, MessagesOk;
    if evs != [] {
      var front, last := evs[..|evs| - 1], evs[|evs| - 1];
      PendingWriteHoldsServer(cfg, w, s, front);
      var k := Run(w, front);
      ReachableIsSafe(cfg, k);
      MessagesInv(k);
      HeldStep(k, s, last);
      OneStepFurther(cfg, k, last);
    }
  }

  lemma MessagesInv(w: World)
    requires MessagesOk(w)
    ensures Inv(w)
  {
  }

  lemma InitReachable(cfg: Config, now: real)
    ensures Reachable(cfg, Init(cfg, now))
  {
    assert ValidRun(Init(cfg, now), []) && Run(Init(cfg, now), []) == Init(cfg, now);
  }

  lemma PongIsSmall()
    ensures |ClientPayload(Pong)| <= MAX_FRAME_BYTES && ParseClient(ClientPayload(Pong)) == Ok(Pong)
  {
    ClientRoundTrip(Pong, []);
    assert ClientPayload(Pong) + [] == ClientPayload(Pong);
  }

  /** One client has connected and sent nothing yet. */
  predicate Fresh(w: World) {
    && w.server.Listening? && !w.cancelled && At(w, 0)
    && w.locals[0].pc.AwaitHello? && w.locals[0].arrived == [] && w.locals[0].nread == 0
  }

  lemma PeerConnects(cfg: Config, now: real) returns (w: World)
    ensures Reachable(cfg, w) && Fresh(w)
  {
    hide Reachable;
    InitReachable(cfg, now);
    var w0 := Init(cfg, now);
    OneStepFurther(cfg, w0, AcceptReady);
    var w1 := Next(w0, AcceptReady);
    OneStepFurther(cfg, w1, Spawn);
    w := Next(w1, Spawn);
  }

  lemma PeerMisspeaks(cfg: Config, start: World) returns (w: World)
    requires Reachable(cfg, start) && Fresh(start)
    ensures Reachable(cfg, w) && !w.cancelled && !w.server.Returned? && At(w, 0) && w.locals[0].pc.Refusing?
  {
    hide Reachable, ServerPayload, ClientPayload, ParseClient;
    PongIsSmall();
    OneStepFurther(cfg, start, Arrive(0, ClientPayload(Pong)));
    var w1 := Next(start, Arrive(0, ClientPayload(Pong)));
    OneStepFurther(cfg, w1, HelloRead(0));
    w := Next(w1, HelloRead(0));
  }

  /** It does happen: a client whose first frame is not a Hello and which then stops reading holds
      up the shutdown of any server. */
  lemma HungPeerHoldsShutdown(cfg: Config, now: real)
    ensures exists w :: Reachable(cfg, w) && w.cancelled && Held(w, 0)
  {
    hide Reachable;
    var start := PeerConnects(cfg, now);
    var w := PeerMisspeaks(cfg, start);
    OneStepFurther(cfg, w, Cancel);
    assert Held(Next(w, Cancel), 0);
  }

  // ----- how long a shutdown can last -----

  lemma WeightBound(pc: Pc, st: Hub.Stage, n: nat)
    ensures Weight(pc, st, n) <= 21 * n + 41
  {
    assert Rank(pc, st) * (n + 2) <= 20 * (n + 2);
  }

  lemma {:induction false} TotalBound(locals: seq<Local>, actors: seq<Hub.Actor>, n: nat)
    requires |locals| == |actors|
    ensures Total(locals, actors, n) <= |locals| * (21 * n + 41)
    decreases |locals|
  {
    hide Weight;
    if locals != [] {
      var k := |locals| - 1;
      TotalBound(locals[..k], actors[..k], n);
      WeightBound(locals[k].pc, actors[k].stage, n);
      assert |locals| * (21 * n + 41) == k * (21 * n + 41) + (21 * n + 41);
    }
  }

  lemma BudgetBound(w: World)
    requires |w.locals| == |w.hub.actors|
    ensures Budget(w) <= Expected(w) * (21 * Expected(w) + 41) + 3
  {
    hide Total, Weight;
    var n, k := Expected(w), |w.locals|;
    TotalBound(w.locals, w.hub.actors, n);
    WeightBound(AwaitHello, Hub.Idle, n);
    OneFactorMore(k, 21 * n + 41);
  }

  lemma OneFactorMore(k: nat, m: nat)
    ensures (k + 1) * m == k * m + m
  {
  }

  /** In numbers: with `n` sessions, one about to be spawned included, a cancelled server takes at
      most `n * (21 * n + 41) + 3` further steps of its own, in any run. */
  lemma DrainIsBounded(cfg: Config, w: World, evs: seq<Event>)
    requires Reachable(cfg, w) && w.cancelled && ValidRun(w, evs)
    ensures ProgramSteps(evs) <= Expected(w) * (21 * Expected(w) + 41) + 3
  {
    hide Reachable, Budget, Expected, ProgramSteps, Run, ValidRun;
    ShutdownTerminates(cfg, w, evs);
    BudgetBound(w);
  }

  // ----- what is said after cancellation -----

  /** Messages a session has broadcast, counting one it may be about to broadcast. */
  function Said(w: World, s: Hub.Sid): nat
    requires s < |w.locals|
  {
    |MessagesBy(w.hub.pubs, s)| + (if Busy(w.locals[s]) then 1 else 0)
  }

  lemma SaidKept(w: World, ev: Event, s: Hub.Sid)
    requires w.cancelled && Enabled(w, ev) && s < |w.locals|
    ensures Next(w, ev).cancelled && s < |Next(w, ev).locals| && Said(Next(w, ev), s) <= Said(w, s)
  {
    StaysCancelled(w, ev);
    LocalsGrow(w, ev);
    PubsPushed(w, ev);
    BusyKept(w, ev, s);
    var k := Next(w, ev);
    if |k.hub.pubs| > |w.hub.pubs| {
      MessagesPush(w.hub.pubs, k.hub.pubs[|w.hub.pubs|], s);
      if ev.Handle? && ev.s == s && k.hub.pubs[|w.hub.pubs|].frame.Message? {
        HandlerWasBusy(w, s);
      }
    }
    hide Enabled, Next, HubEvent, Busy;
  }

  /** No session reads another frame. */
  lemma BusyKept(w: World, ev: Event, s: Hub.Sid)
    requires w.cancelled && Enabled(w, ev) && s < |w.locals| && s < |Next(w, ev).locals|
    ensures Busy(Next(w, ev).locals[s]) ==> Busy(w.locals[s])
    ensures ev.Handle? && ev.s == s ==> !Busy(Next(w, ev).locals[s])
  {
    hide Enabled, Next, HubAfter, Moved, Busy;
    if IsSession(ev) {
      NextIs(w, ev);
      if ev.s == s { OwnBusy(w, ev); }
    } else {
      ServerBusy(w, ev, s);
    }
  }

  lemma ServerBusy(w: World, ev: Event, s: Hub.Sid)
    requires Enabled(w, ev) && !IsSession(ev) && s < |w.locals|
    ensures s < |Next(w, ev).locals| && Next(w, ev).locals[s] == w.locals[s]
  {
    hide Hub.Next, Hub.Enabled;
  }

  lemma OwnBusy(w: World, ev: Event)
    requires w.cancelled && Enabled(w, ev) && IsSession(ev) && At(w, ev.s)
    ensures Busy(Moved(w, ev)) ==> Busy(w.locals[ev.s])
    ensures ev.Handle? ==> !Busy(Moved(w, ev))
  {
    if ev.Handle? {
      hide Enabled, Moved, Reacts;
      HandleMoves(w, ev.s);
    } else if ev.Poll? {
      hide Enabled, HubAfter, Moved, Chosen;
      PollEffect(w, ev.s, ev.tick);
      CancelledPoll(w, ev.s, ev.tick);
    } else {
      OtherBusy(w, ev);
    }
  }

  lemma OtherBusy(w: World, ev: Event)
    requires Enabled(w, ev) && IsSession(ev) && At(w, ev.s) && !ev.Handle? && !ev.Poll?
    ensures Busy(Moved(w, ev)) ==> Busy(w.locals[ev.s])
  {
    hide Fits, Judge, HubEvent, WelcomeFrame, ParseClient, Hub.Enabled, Reacts, Chosen;
  }

  lemma HandlerWasBusy(w: World, s: Hub.Sid)
    requires Enabled(w, Handle(s)) && HubEvent(w, Handle(s)).Some?
    ensures s < |w.locals| && Busy(w.locals[s])
  {
    HandleEvent(w, s);
    var l, me := w.locals[s], NameOf(w, s);
    BroadcastIsMessage(w.cfg, me, VarsAfter(w.cfg, me, l.start, l.trace), w.clock, l.pc.arm);
    hide React;
  }

  /** After cancellation each session broadcasts at most one further Message. */
  lemma OneLastMessage(w: World, evs: seq<Event>, s: Hub.Sid)
    requires w.cancelled && ValidRun(w, evs) && s < |w.locals|
    ensures |MessagesBy(Run(w, evs).hub.pubs, s)| <= |MessagesBy(w.hub.pubs, s)| + 1
  {
    SaidAtMost(w, evs, s);
  }

  lemma {:induction false} SaidAtMost(w: World, evs: seq<Event>, s: Hub.Sid)
    requires w.cancelled && ValidRun(w, evs) && s < |w.locals|
    ensures Run(w, evs).cancelled && s < |Run(w, evs).locals| && Said(Run(w, evs), s) <= Said(w, s)
    decreases |evs|
  {
    hide Enabled, Next, Said;
    if evs != [] {
      SaidAtMost(w, evs[..|evs| - 1], s);
      SaidKept(Run(w, evs[..|evs| - 1]), evs[|evs| - 1], s);
    }
  }

  // ----- what is left -----

  predicate ReturnedOk(w: World) { w.server.Returned? ==> AllEnded(w) }

  lemma ReturnedStep(w: World, ev: Event)
    requires ReturnedOk(w) && Enabled(w, ev)
    ensures ReturnedOk(Next(w, ev))
  {
    if IsSession(ev) {
      NextIs(w, ev);
      if FromOutside(ev) { OutsideMovesNobody(w, ev); }
      else if w.server.Returned? { EndedIsStill(w, ev); }
      hide HubAfter, Moved, Enabled, Next;
    } else {
      hide Hub.Next;
    }
  }

  lemma EndedIsStill(w: World, ev: Event)
    requires LocallyEnabled(w, ev) && IsSession(ev) && !FromOutside(ev)
    ensures At(w, ev.s) && !w.locals[ev.s].pc.Ended?
  {
    hide Fits, Reacts, Chosen;
  }

  lemma {:induction false} ReturnedSafety(cfg: Config, now: real, evs: seq<Event>)
    requires ValidRun(Init(cfg, now), evs)
    ensures ReturnedOk(Run(Init(cfg, now), evs))
    decreases |evs|
  {
    hide Enabled, Next;
    if evs != [] {
      ReturnedSafety(cfg, now, evs[..|evs| - 1]);
      ReturnedStep(Run(Init(cfg, now), evs[..|evs| - 1]), evs[|evs| - 1]);
    }
  }

  /** When `serve` returns every session has ended, no name is taken and nobody is counted; every
      Joined has been followed by its Departed. */
  lemma ServeLeavesNothing(cfg: Config, w: World)
    requires Reachable(cfg, w) && w.server.Returned?
    ensures AllEnded(w) && w.hub.registry == map[] && w.hub.occupancy == 0
    ensures forall s :: 0 <= s < |w.hub.actors| ==>
              HubSafety.JoinsBy(w.hub.pubs, s) == HubSafety.DepartsBy(w.hub.pubs, s) <= 1
  {
    var now, evs :| ValidRun(Init(cfg, now), evs) && Run(Init(cfg, now), evs) == w;
    ReturnedSafety(cfg, now, evs);
    ReachableIsSafe(cfg, w);
    hide Reachable, ValidRun, Run;
    EndedIsEmpty(w);
    ServerHubIsReachable(cfg, w);
  }

  lemma EndedIsEmpty(w: World)
    requires Inv(w) && AllEnded(w)
    ensures w.hub.registry == map[] && w.hub.occupancy == 0
    ensures forall s :: 0 <= s < |w.hub.actors| ==>
              HubSafety.JoinsBy(w.hub.pubs, s) == HubSafety.DepartsBy(w.hub.pubs, s) <= 1
  {
    EndedStages(w);
    AllGone(w.hub);
  }

  lemma EndedStages(w: World)
    requires SessionsOk(w) && AllEnded(w)
    ensures forall s :: 0 <= s < |w.hub.actors| ==> w.hub.actors[s].stage.Idle? || w.hub.actors[s].stage.Gone?
  {
    forall s | 0 <= s < |w.hub.actors| ensures w.hub.actors[s].stage.Idle? || w.hub.actors[s].stage.Gone? {
      assert SessionOk(w.cfg, w.locals[s], w.hub.actors[s], w.clock) && w.locals[s].pc.Ended?;
    }
  }

  lemma HubCounts(h: Hub.Hub)
    requires HubSafety.Inv(h)
    ensures HubOccupancy.OccupancyOk(h) && HubTalk.TalksOk(h)
  {
  }

  lemma AllGone(h: Hub.Hub)
    requires HubSafety.Inv(h)
    requires forall s :: 0 <= s < |h.actors| ==> h.actors[s].stage.Idle? || h.actors[s].stage.Gone?
    ensures h.registry == map[] && h.occupancy == 0
    ensures forall s :: 0 <= s < |h.actors| ==> HubSafety.JoinsBy(h.pubs, s) == HubSafety.DepartsBy(h.pubs, s) <= 1
  {
    hide HubSafety.Inv, HubTalk.SessionTalk, HubSafety.JoinsBy, HubSafety.DepartsBy, HubOccupancy.Count;
    HubCounts(h);
    forall s | 0 <= s < |h.actors|
      ensures HubSafety.JoinsBy(h.pubs, s) == HubSafety.DepartsBy(h.pubs, s) <= 1
    {
      assert HubTalk.TalkFits(h.actors[s].stage, HubTalk.SessionTalk(h.pubs, s));
      HubSafety.TalkCounts(h.pubs, s);
    }
    HubOccupancy.CountNone(h.actors, Hub.Holding);
    HubOccupancy.CountNone(h.actors, Hub.Counted);
    assert |h.registry| == 0;
  }
}
