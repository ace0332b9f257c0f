/** Whether a shutdown gets through without its peers (server/src/lib.rs,
    server/src/actor/session.rs). */
module ServerUnaided {
  import opened Utf8
  import opened Frames
  import opened TokenBucket
  import opened SessionLoop
  import opened SessionTrace
  import opened ServerMachine
  import opened ServerSessions
  import opened ServerSafety
  import opened ServerMessages
  import opened ServerTheorems
  import opened ServerShutdown
  import opened ServerDrain
  import opened ServerLives
  import Hub = HubMachine
  import HubRegistry
  import HubBroadcasts
  import HubSafety

  // ----- which turns must end in a write -----

  /** A bucket that will admit a message sooner or later. */
  predicate MayAdmit(l: Limits, b: Bucket) {
    l.capacity >= ONE_MESSAGE && (l.rate > 0.0 || b.tokens >= ONE_MESSAGE)
  }

  /** A turn that writes to the client, at whatever time it is handled. */
  predicate MustWrite(cfg: Config, v: Vars, arm: Arm) {
    match arm
    case OnShutdown => true
    case OnTick => true
    case OnMail(frame) => frame.Some?
    case OnRead(Frame(Hello(_, _))) => true
    case OnRead(Frame(Send(body))) => !ValidBody(body) || !MayAdmit(cfg.Limits(), v.bucket)
    case OnRead(_) => false
  }

  /** When the bucket will admit a message. */
  function AdmissionTime(l: Limits, b: Bucket, now: real): real
    requires MayAdmit(l, b)
  {
    var short := l.rate > 0.0 && b.tokens < ONE_MESSAGE;
    var late := if short then b.lastRefill + (ONE_MESSAGE - b.tokens) / l.rate else now;
    if late >= now then late else now
  }

  lemma EarnedInTime(l: Limits, need: real, length: real)
    requires l.rate > 0.0 && length >= need / l.rate
    ensures Earned(l, length) >= need
  {
    assert length * l.rate >= need / l.rate * l.rate;
  }

  lemma AdmittedInTime(l: Limits, b: Bucket, now: real)
    requires l.Valid() && MayAdmit(l, b)
    ensures AdmissionTime(l, b, now) >= now && Admits(l, b, Call(AdmissionTime(l, b, now), ONE_MESSAGE))
  {
    var t := AdmissionTime(l, b, now);
    var e := Elapsed(b.lastRefill, t);
    if b.tokens < ONE_MESSAGE {
      var need := (ONE_MESSAGE - b.tokens) / l.rate;
      PositiveQuotient(ONE_MESSAGE - b.tokens, l.rate);
      EarnedInTime(l, ONE_MESSAGE - b.tokens, e);
    } else {
      EarnedGrows(l, 0.0, e);
    }
  }

  lemma PositiveQuotient(a: real, b: real)
    requires a > 0.0 && b > 0.0
    ensures a / b > 0.0
  {
  }

  lemma NeverAdmitted(l: Limits, b: Bucket, t: real)
    requires l.Valid() && !MayAdmit(l, b)
    ensures !Admits(l, b, Call(t, ONE_MESSAGE))
  {
    var e := Elapsed(b.lastRefill, t);
    if l.rate == 0.0 { assert Earned(l, e) == 0.0; }
  }

  /** A time at which the turn does not write, if there is one. */
  function FreeTime(cfg: Config, v: Vars, now: real, arm: Arm): real
    requires !MustWrite(cfg, v, arm)
  {
    if arm.OnRead? && arm.inbound.Frame? && arm.inbound.frame.Send? then AdmissionTime(cfg.Limits(), v.bucket, now)
    else now
  }

  lemma WritesOrFree(cfg: Config, me: Str, v: Vars, now: real, arm: Arm)
    requires cfg.Valid()
    ensures MustWrite(cfg, v, arm) ==> React(cfg, me, v, now, arm).1.Write?
    ensures !MustWrite(cfg, v, arm) ==>
      FreeTime(cfg, v, now, arm) >= now && !React(cfg, me, v, FreeTime(cfg, v, now, arm), arm).1.Write?
  {
    hide Consume, ValidateBody;
    if arm.OnRead? && arm.inbound.Frame? && arm.inbound.frame.Send? {
      if MayAdmit(cfg.Limits(), v.bucket) {
        AdmittedInTime(cfg.Limits(), v.bucket, now);
      } else {
        NeverAdmitted(cfg.Limits(), v.bucket, now);
      }
    }
  }

  /** `MustWrite` says what it means: the turn writes at every later time. */
  lemma MustWriteMeans(cfg: Config, me: Str, v: Vars, now: real, arm: Arm)
    requires cfg.Valid()
    ensures MustWrite(cfg, v, arm) <==> forall t :: t >= now ==> React(cfg, me, v, t, arm).1.Write?
  {
    hide React, MustWrite, FreeTime;
    forall t | t >= now && MustWrite(cfg, v, arm) ensures React(cfg, me, v, t, arm).1.Write? {
      WritesOrFree(cfg, me, v, t, arm);
    }
    WritesOrFree(cfg, me, v, now, arm);
  }

  // ----- sessions that cannot get through -----

  /** Writing, or bound to write, anything but the goodbye. */
  predicate DoomedSession(cfg: Config, me: Str, l: Local) {
    match l.pc
    case Registering => true
    case Counting => true
    case Reading => true
    case Greeting(_) => true
    case Refusing(_) => true
    case Replying(_, _, _) => !Goodbye(l)
    case Handling(arm) => !arm.OnShutdown? && MustWrite(cfg, VarsAfter(cfg, me, l.start, l.trace), arm)
    case _ => false
  }

  predicate Doomed(w: World, s: Hub.Sid) {
    At(w, s) && DoomedSession(w.cfg, Me(w.hub.actors[s]), w.locals[s])
  }

  predicate NoneDoomed(w: World) { forall s :: 0 <= s < |w.locals| ==> !Doomed(w, s) }

  lemma SameDoom(w: World, ev: Event, r: Hub.Sid)
    requires Inv(w) && Enabled(w, ev) && IsSession(ev) && At(w, r) && r != ev.s
    ensures At(Next(w, ev), r) && (Doomed(Next(w, ev), r) <==> Doomed(w, r))
  {
    hide Inv, Enabled, Next, HubAfter, Moved, DoomedSession;
    NextIs(w, ev);
    OtherKey(w, ev, r);
  }

  /** Steps that are no session's change no session's doom, and a new session is not doomed. */
  lemma ServerDoom(w: World, ev: Event, r: Hub.Sid)
    requires Inv(w) && Enabled(w, ev) && !IsSession(ev) && r < |Next(w, ev).locals|
    ensures At(Next(w, ev), r)
    ensures if r < |w.locals| then At(w, r) && (Doomed(Next(w, ev), r) <==> Doomed(w, r)) else !Doomed(Next(w, ev), r)
  {
    hide HubSafety.Inv, PubsOrdinary, SessionOk, Enabled, Next, DoomedSession;
    if ev.Spawn? {
      SpawnEffect(w);
      NewcomerFree(w.cfg, w.clock);
      SameConfig(w, ev);
    } else {
      ServerEffect(w, ev);
    }
  }

  lemma NewcomerFree(cfg: Config, now: real)
    ensures !DoomedSession(cfg, Me(Hub.NEWCOMER), Connect(now))
  {
  }

  lemma DeliveredDoom(w: World, ev: Event)
    requires Inv(w) && Enabled(w, ev) && IsSession(ev) && FromOutside(ev)
    ensures At(w, ev.s) && At(Next(w, ev), ev.s)
    ensures Doomed(Next(w, ev), ev.s) <==> Doomed(w, ev.s)
  {
    hide Inv, Enabled, Next, HubAfter, Moved, MustWrite, VarsAfter;
    NextIs(w, ev);
    Delivered(w, ev);
    DeliveryKeepsHub(w, ev);
  }

  lemma DeliveryKeepsHub(w: World, ev: Event)
    requires Enabled(w, ev) && IsSession(ev) && FromOutside(ev)
    ensures HubAfter(w, ev) == w.hub
    ensures At(w, ev.s) && Moved(w, ev).start == w.locals[ev.s].start
  {
    hide ParseClient;
  }

  // ----- once doomed, always doomed -----

  /** A doomed session's own step leaves it doomed, unless it ends a write. */
  lemma OwnDoom(w: World, ev: Event)
    requires Inv(w) && w.cfg.Valid() && Enabled(w, ev) && IsSession(ev) && !FromOutside(ev) && !EndsWrite(ev, ev.s)
    requires Doomed(w, ev.s)
    ensures At(Next(w, ev), ev.s) && Doomed(Next(w, ev), ev.s)
  {
    hide Inv, Enabled, Next, HubAfter, Moved, MustWrite, VarsAfter, Reacts, AfterHandling;
    NextIs(w, ev);
    NumberKept(w, ev);
    StillLocal(w, ev);
    var l := w.locals[ev.s];
    if ev.Handle? {
      HandleEffect(w, ev.s);
      WritesOrFree(w.cfg, NameOf(w, ev.s), VarsAfter(w.cfg, NameOf(w, ev.s), l.start, l.trace), w.clock, l.pc.arm);
      DoomedWrites(l, w.clock, Reacts(w, ev.s, l.pc.arm));
    } else {
      DoomedMoves(w, ev);
    }
  }

  lemma DoomedWrites(l: Local, now: real, r: Reaction)
    requires l.pc.Handling? && !l.pc.arm.OnShutdown? && r.Write?
    ensures AfterHandling(l, now, r).pc.Replying? && !Goodbye(AfterHandling(l, now, r))
  {
  }

  lemma DoomedMoves(w: World, ev: Event)
    requires Enabled(w, ev) && IsSession(ev) && !FromOutside(ev) && !EndsWrite(ev, ev.s) && !ev.Handle?
    requires Doomed(w, ev.s)
    ensures var pc := Moved(w, ev).pc; pc.Refusing? || pc.Counting? || pc.Reading? || pc.Greeting?
  {
    hide Fits, Chosen, Hub.Enabled, MustWrite, VarsAfter, HubEvent, WelcomeFrame, AlreadyTaken;
  }

  lemma DoomStep(w: World, s: Hub.Sid, ev: Event)
    requires Inv(w) && w.cfg.Valid() && Doomed(w, s) && Enabled(w, ev) && !EndsWrite(ev, s)
    requires !w.server.Returned?
    ensures Doomed(Next(w, ev), s) && !Next(w, ev).server.Returned?
  {
    hide Inv, Enabled, Next, DoomedSession;
    NotBack(w, s, ev);
    if !IsSession(ev) {
      WorldGrows(w, ev);
      ServerDoom(w, ev, s);
    } else if ev.s != s {
      SameDoom(w, ev, s);
    } else if FromOutside(ev) {
      DeliveredDoom(w, ev);
    } else {
      OwnDoom(w, ev);
    }
  }

  lemma WorldGrows(w: World, ev: Event)
    requires Enabled(w, ev)
    ensures |w.locals| <= |Next(w, ev).locals|
  {
    hide Enabled, Next;
    LocalsGrow(w, ev);
  }

  /** While a session is doomed it has not ended, so `serve` does not return. */
  lemma NotBack(w: World, s: Hub.Sid, ev: Event)
    requires Doomed(w, s) && Enabled(w, ev) && !w.server.Returned?
    ensures !Next(w, ev).server.Returned?
  {
    hide MustWrite, VarsAfter, Hub.Next, Hub.Enabled;
    if IsSession(ev) {
      NextIs(w, ev);
      hide Enabled, Next, HubAfter, Moved;
    }
  }

  /** Once doomed a session stays doomed, and `serve` does not return, in any run in which none of
      its writes completes or fails. */
  lemma {:induction false} DoomHoldsServer(cfg: Config, w: World, s: Hub.Sid, evs: seq<Event>)
    requires cfg.Valid() && Reachable(cfg, w) && Doomed(w, s) && !w.server.Returned? && ValidRun(w, evs)
    requires forall i :: 0 <= i < |evs| ==> !EndsWrite(evs[i], s)
    ensures Reachable(cfg, Run(w, evs)) && Doomed(Run(w, evs), s) && !Run(w, evs).server.Returned?
    decreases |evs|
  {
    hide Reachable, Enabled, Next, Doomed, MessagesOk, Inv;
    if evs != [] {
      var front, last := evs[..|evs| - 1], evs[|evs| - 1];
      DoomHoldsServer(cfg, w, s, front);
      var k := Run(w, front);
      ReachableIsSafe(cfg, k);
      MessagesInv(k);
      DoomStep(k, s, last);
      OneStepFurther(cfg, k, last);
    }
  }

  // ----- a shutdown that gets through -----

  /** No write completes or fails. */
  predicate Unaided(evs: seq<Event>) { forall i :: 0 <= i < |evs| ==> !evs[i].WriteDone? && !evs[i].WriteFail? }

  /** The clients do nothing at all: time passes, and the server goes its way. */
  predicate Alone(evs: seq<Event>) {
    Unaided(evs) && forall i :: 0 <= i < |evs| ==> !FromOutside(evs[i]) || evs[i].Advance?
  }

  /** A step that keeps a session out of doom: its turn, if it handles one, does not write, unless
      it has seen the shutdown. */
  lemma FreeMove(w: World, ev: Event)
    requires Inv(w) && w.cancelled && Enabled(w, ev) && IsSession(ev) && !FromOutside(ev)
    requires !ev.WriteDone? && !ev.WriteFail? && !Doomed(w, ev.s)
    requires ev.Handle? ==>
      var arm := w.locals[ev.s].pc.arm; arm.OnShutdown? || !Reacts(w, ev.s, arm).Write?
    ensures At(Next(w, ev), ev.s) && !Doomed(Next(w, ev), ev.s)
  {
    hide Inv, Enabled, Next, HubAfter, Moved, MustWrite, VarsAfter, Reacts, AfterHandling;
    NextIs(w, ev);
    NumberKept(w, ev);
    StillLocal(w, ev);
    var l := w.locals[ev.s];
    if ev.Handle? {
      HandleEffect(w, ev.s);
      ShutdownIsLast(w, ev.s);
      FreeTurn(l, w.clock, Reacts(w, ev.s, l.pc.arm));
    } else if ev.Poll? {
      PollEffect(w, ev.s, ev.tick);
      CancelledPoll(w, ev.s, ev.tick);
    } else {
      FreeMoves(w, ev);
    }
  }

  lemma FreeTurn(l: Local, now: real, r: Reaction)
    requires l.pc.Handling? && (if l.pc.arm.OnShutdown? then r.Write? && r.last else !r.Write?)
    ensures var k := AfterHandling(l, now, r);
            (k.pc.Replying? && Goodbye(k)) || k.pc.Relaying? || k.pc.Selecting? || k.pc.Leaving?
  {
  }

  lemma FreeMoves(w: World, ev: Event)
    requires w.cancelled && Enabled(w, ev) && IsSession(ev) && !FromOutside(ev)
    requires !ev.WriteDone? && !ev.WriteFail? && !ev.Handle? && !ev.Poll? && !Doomed(w, ev.s)
    ensures var pc := Moved(w, ev).pc;
            || pc.Announcing? || pc.Selecting? || pc.Relaying? || pc.Leaving?
            || pc.Releasing? || pc.Uncounting? || pc.Dropping? || pc.Ended?
  {
    hide Fits, Chosen, Hub.Enabled, MustWrite, VarsAfter, HubEvent, WelcomeFrame, AlreadyTaken;
  }

  /** When to let a session go on. */
  function Moment(w: World, s: Hub.Sid): real
    requires At(w, s) && !Doomed(w, s)
  {
    var l := w.locals[s];
    if l.pc.Replying? && Goodbye(l) then
      var over := l.trace[|l.trace| - 1].at + w.cfg.goodbyeTimeout; if over >= w.clock then over else w.clock
    else if l.pc.Handling? && !l.pc.arm.OnShutdown? then
      FreeTime(w.cfg, VarsAfter(w.cfg, Me(w.hub.actors[s]), l.start, l.trace), w.clock, l.pc.arm)
    else w.clock
  }

  lemma MomentComes(w: World, s: Hub.Sid)
    requires w.cfg.Valid() && At(w, s) && !Doomed(w, s) && (w.locals[s].pc.Handling? ==> Named(w, s))
    ensures Moment(w, s) >= w.clock
    ensures w.locals[s].pc.Handling? && !w.locals[s].pc.arm.OnShutdown? ==>
      !Reacts(w.(clock := Moment(w, s)), s, w.locals[s].pc.arm).Write?
  {
    hide React, VarsAfter, MustWrite, FreeTime;
    var l, me := w.locals[s], Me(w.hub.actors[s]);
    if l.pc.Handling? && !l.pc.arm.OnShutdown? {
      WritesOrFree(w.cfg, me, VarsAfter(w.cfg, me, l.start, l.trace), w.clock, l.pc.arm);
    }
  }

  lemma TwoEvents(w: World, a: Event, b: Event)
    requires Enabled(w, a) && Enabled(Next(w, a), b)
    ensures ValidRun(w, [a, b]) && Run(w, [a, b]) == Next(Next(w, a), b)
  {
    hide Enabled, Next;
    OneEvent(w, a);
    assert [a, b][..1] == [a];
  }

  lemma OneEvent(w: World, a: Event)
    requires Enabled(w, a)
    ensures ValidRun(w, [a]) && Run(w, [a]) == Next(w, a)
  {
    hide Enabled, Next;
    assert [a][..0] == [];
    assert ValidRun(w, []) && Run(w, []) == w;
  }

  /** A world on its way to a shutdown that needs nobody. */
  ghost predicate OnItsWay(cfg: Config, w: World) {
    cfg.Valid() && Reachable(cfg, w) && w.cancelled && NoneDoomed(w) && |w.locals| == |w.hub.actors|
  }

  /** Time may pass: it dooms nobody. */
  lemma WaitingDoomsNobody(cfg: Config, w: World, t: real)
    requires OnItsWay(cfg, w) && t >= w.clock
    ensures Enabled(w, Advance(t)) && Next(w, Advance(t)) == w.(clock := t)
    ensures OnItsWay(cfg, w.(clock := t)) && Budget(w.(clock := t)) == Budget(w)
  {
    hide Reachable, Inv, Enabled, Next, Doomed, MessagesOk, Budget;
    ClockMayMove(w, t);
    ClockMoves(w, t);
    OneStepFurther(cfg, w, Advance(t));
    ReachableIsSafe(cfg, w);
    MessagesInv(w);
    OutsideSpendsNothing(w, Advance(t));
    var k := w.(clock := t);
    forall r | 0 <= r < |k.locals| ensures !Doomed(k, r) { ServerDoom(w, Advance(t), r); }
  }

  lemma HandlersAreNamed(w: World, s: Hub.Sid)
    requires Inv(w) && s < |w.locals|
    ensures At(w, s) && (w.locals[s].pc.Handling? ==> Named(w, s))
  {
    hide Inv, LocalOk, HubRegistry.RegistryOk, HubBroadcasts.ItersOk, ValidateUsername;
    SessionParts(w, s);
  }

  lemma Steps(cfg: Config, w: World, ev: Event)
    requires OnItsWay(cfg, w) && Enabled(w, ev) && !FromOutside(ev)
    requires IsSession(ev) ==> At(Next(w, ev), ev.s) && !Doomed(Next(w, ev), ev.s)
    ensures OnItsWay(cfg, Next(w, ev)) && Budget(Next(w, ev)) < Budget(w)
  {
    hide Reachable, Inv, Enabled, Next, Doomed, MessagesOk, Budget;
    OneStepFurther(cfg, w, ev);
    ReachableIsSafe(cfg, w);
    MessagesInv(w);
    BudgetStep(w, ev);
    SameConfig(w, ev);
    var k := Next(w, ev);
    forall r | 0 <= r < |k.locals| ensures !Doomed(k, r) {
      if !IsSession(ev) {
        ServerDoom(w, ev, r);
      } else if r != ev.s {
        SessionsStay(w, ev);
        SameDoom(w, ev, r);
      }
    }
  }

  lemma SessionsStay(w: World, ev: Event)
    requires Enabled(w, ev) && IsSession(ev)
    ensures |Next(w, ev).locals| == |w.locals|
  {
    hide Enabled, HubAfter, Moved, Next;
    NextIs(w, ev);
  }

  /** One session that has not ended goes one step further. */
  lemma SessionGoesOn(cfg: Config, w: World, s: Hub.Sid) returns (evs: seq<Event>)
    requires OnItsWay(cfg, w) && s < |w.locals| && !w.locals[s].pc.Ended?
    ensures Alone(evs) && ValidRun(w, evs) && OnItsWay(cfg, Run(w, evs)) && Budget(Run(w, evs)) < Budget(w)
  {
    hide Reachable, Inv, Enabled, Next, Doomed, MessagesOk, Budget, Moment, Reacts, MovesUnaided, Goodbye, Writing;
    ReachableIsSafe(cfg, w);
    MessagesInv(w);
    HandlersAreNamed(w, s);
    MomentComes(w, s);
    var t := Moment(w, s);
    WaitingDoomsNobody(cfg, w, t);
    var k := w.(clock := t);
    FreeAtMoment(w, s);
    ShutdownRacesOnlyGoodbye(cfg, k, s);
    var ev := SomeMove(k, s);
    ReachableIsSafe(cfg, k);
    MessagesInv(k);
    if ev.Handle? { OnlyOwnTurn(k, ev); }
    FreeMove(k, ev);
    Steps(cfg, k, ev);
    TwoEvents(w, Advance(t), ev);
    evs := [Advance(t), ev];
  }

  lemma OnlyOwnTurn(w: World, ev: Event)
    requires Enabled(w, ev) && ev.Handle?
    ensures At(w, ev.s) && w.locals[ev.s].pc.Handling?
  {
  }

  lemma FreeAtMoment(w: World, s: Hub.Sid)
    requires At(w, s) && !Doomed(w, s)
    ensures var k, l := w.(clock := Moment(w, s)), w.locals[s];
            Writing(l.pc).None? || (Goodbye(l) && GoodbyeIsOver(k, l))
  {
    hide MustWrite, VarsAfter, FreeTime;
  }

  lemma SomeMove(w: World, s: Hub.Sid) returns (ev: Event)
    requires MovesUnaided(w, s)
    ensures IsSession(ev) && !FromOutside(ev) && !ev.WriteDone? && !ev.WriteFail? && ev.s == s && Enabled(w, ev)
  {
    hide Enabled;
    ev :| IsSession(ev) && !FromOutside(ev) && !ev.WriteDone? && !ev.WriteFail? && ev.s == s && Enabled(w, ev);
  }

  /** With no session left, or none yet to wait for, the accept loop goes one step further. */
  lemma ServerGoesOn(cfg: Config, w: World) returns (evs: seq<Event>)
    requires OnItsWay(cfg, w) && !w.server.Returned? && AllEnded(w)
    ensures Alone(evs) && ValidRun(w, evs) && OnItsWay(cfg, Run(w, evs)) && Budget(Run(w, evs)) < Budget(w)
  {
    hide Reachable, Next, Doomed, Budget;
    var ev := if w.server.Listening? then StopListening else if w.server.Spawning? then Spawn else Return;
    assert Enabled(w, ev);
    Steps(cfg, w, ev);
    OneEvent(w, ev);
    evs := [ev];
  }

  lemma {:induction false} RunsJoin(w: World, a: seq<Event>, b: seq<Event>)
    requires ValidRun(w, a) && ValidRun(Run(w, a), b)
    ensures ValidRun(w, a + b) && Run(w, a + b) == Run(Run(w, a), b)
    decreases |b|
  {
    hide Enabled, Next;
    if b == [] {
      assert a + b == a;
    } else {
      var front := b[..|b| - 1];
      RunsJoin(w, a, front);
      assert (a + b)[..|a + b| - 1] == a + front;
    }
  }

  /** The clients may do nothing at all, and still the server returns. */
  lemma GetsThrough(cfg: Config, w: World) returns (evs: seq<Event>)
    requires OnItsWay(cfg, w)
    ensures Alone(evs) && ValidRun(w, evs) && Run(w, evs).server.Returned?
    decreases Budget(w)
  {
    hide Reachable, Enabled, Next, Doomed, NoneDoomed, Budget;
    if w.server.Returned? {
      evs := [];
    } else {
      var some;
      if s :| 0 <= s < |w.locals| && !w.locals[s].pc.Ended? {
        some := SessionGoesOn(cfg, w, s);
      } else {
        some := ServerGoesOn(cfg, w);
      }
      var rest := GetsThrough(cfg, Run(w, some));
      RunsJoin(w, some, rest);
      evs := some + rest;
    }
  }

  /** Exactly when a shutdown needs no peer. A cancelled server that has not returned can still
      return without any of its writes completing or failing if and only if no session is doomed:
      none is writing, or on its way to write, Rejected, Welcome, an answer, a ping, a mailbox frame
      or any last word but the goodbye. And then it can do so though its clients do nothing at all. */
  lemma ShutdownNeedsNoPeer(cfg: Config, w: World)
    requires cfg.Valid() && Reachable(cfg, w) && w.cancelled && !w.server.Returned?
    ensures (exists evs :: ValidRun(w, evs) && Unaided(evs) && Run(w, evs).server.Returned?) <==> NoneDoomed(w)
    ensures NoneDoomed(w) ==> exists evs :: ValidRun(w, evs) && Alone(evs) && Run(w, evs).server.Returned?
  {
    hide Reachable, Enabled, Next, Doomed, MessagesOk, Inv;
    ReachableIsSafe(cfg, w);
    MessagesInv(w);
    SameNumbers(w);
    forall evs | ValidRun(w, evs) && Unaided(evs) && Run(w, evs).server.Returned? ensures NoneDoomed(w) {
      forall s | 0 <= s < |w.locals| ensures !Doomed(w, s) {
        if Doomed(w, s) {
          DoomHoldsServer(cfg, w, s, evs);
          assert false;
        }
      }
    }
    if NoneDoomed(w) {
      var evs := GetsThrough(cfg, w);
      assert Unaided(evs);
    }
  }
}
