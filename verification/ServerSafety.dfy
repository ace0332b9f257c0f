/** The server after every run: sessions and hub agree, and what clients receive is sound. */
module ServerSafety {
  import opened Wrappers
  import opened Utf8
  import opened Frames
  import opened SessionLoop
  import opened SessionTrace
  import opened ServerMachine
  import opened ServerSessions
  import HubRegistry
  import HubBroadcasts
  import HubSafety
  import Hub = HubMachine

  function Me(a: Hub.Actor): Str { if a.key.Some? then a.key.value.name else [] }

  /** One session and its actor in the hub. */
  predicate SessionOk(cfg: Config, l: Local, a: Hub.Actor, now: real) {
    && Linked(l.pc, a.stage)
    && (a.key.Some? ==> ValidName(Me(a)))
    && LocalOk(l) && MailOk(l, a.mail)
    && TraceOk(cfg, Me(a), l, now)
  }

  predicate SessionsOk(w: World) {
    && |w.locals| == |w.hub.actors|
    && forall s :: 0 <= s < |w.locals| ==> SessionOk(w.cfg, w.locals[s], w.hub.actors[s], w.clock)
  }

  /** Everything broadcast is a frame of the room, and fits. */
  predicate PubsOrdinary(h: Hub.Hub) { forall p :: 0 <= p < |h.pubs| ==> Ordinary(h.pubs[p].frame) }

  ghost predicate Inv(w: World) { HubSafety.Inv(w.hub) && SessionsOk(w) && PubsOrdinary(w.hub) }

  // ----- the hub's part -----

  lemma HubKept(w: World, ev: Event)
    requires HubSafety.Inv(w.hub) && Enabled(w, ev)
    ensures HubSafety.Inv(Next(w, ev).hub)
  {
    hide HubSafety.Inv, Hub.Next, Hub.Enabled;
    if HubEvent(w, ev).Some? { HubSafety.InvStep(w.hub, HubEvent(w, ev).value); }
  }

  /** What a hub step leaves of the sessions that do not take it: everything but what is offered
      to their mailboxes. */
  ghost predicate Bystander(a: Hub.Actor, b: Hub.Actor) {
    && b.stage == a.stage && b.key == a.key && b.claim == a.claim
    && (b.mail == a.mail || exists x :: b.mail == Hub.Offer(a.mail, x))
  }

  lemma BystandersKept(h: Hub.Hub, e: Hub.Event, r: Hub.Sid)
    requires HubRegistry.RegistryOk(h) && Hub.Enabled(h, e) && Hub.At(h, r) && (e.Spawn? || r != e.s)
    ensures |Hub.Next(h, e).actors| >= |h.actors| && Bystander(h.actors[r], Hub.Next(h, e).actors[r])
  {
    if e.Visit? {
      HubBroadcasts.VisitDoes(h, e.s, e.i);
      hide Hub.Next, Hub.Offer, HubRegistry.RegistryOk;
      assert HubBroadcasts.VisitEffect(h, Hub.Next(h, e), e.s, e.i);
    } else {
      hide HubRegistry.RegistryOk;
    }
  }

  lemma BystanderOk(cfg: Config, l: Local, a: Hub.Actor, b: Hub.Actor, now: real)
    requires SessionOk(cfg, l, a, now) && Bystander(a, b)
    ensures SessionOk(cfg, l, b, now)
  {
    hide LocalOk, TraceOk, Linked, MailOk, ValidateUsername;
    if b.mail != a.mail {
      var x :| b.mail == Hub.Offer(a.mail, x);
      OfferMail(l, a.mail, x);
    }
  }

  lemma ClockOk(cfg: Config, l: Local, a: Hub.Actor, now: real, later: real)
    requires SessionOk(cfg, l, a, now) && now <= later
    ensures SessionOk(cfg, l, a, later)
  {
    hide LocalOk, Linked, MailOk;
  }

  // ----- the session that takes the step, apart from the world -----

  function AcceptedName(l: Local): Option<Str> {
    match NextInbound(l)
    case Some(Frame(first)) => if Judge(first).Accept? then Some(Judge(first).name) else None
    case _ => None
  }

  lemma ReadHello(cfg: Config, l: Local, a: Hub.Actor, b: Hub.Actor, now: real)
    requires SessionOk(cfg, l, a, now) && l.pc.AwaitHello? && l.nread < |l.arrived|
    requires b.mail == a.mail
    requires AcceptedName(l).None? ==> b == a
    requires AcceptedName(l).Some? ==> b.stage.Registering? && b.key.Some? && Me(b) == AcceptedName(l).value
    ensures SessionOk(cfg, AfterHello(l), b, now)
  {
    hide Judge, Fits, ValidateUsername, LocalOk, AfterHello, AcceptedName;
    HelloKeeps(l);
    AfterHelloShape(l);
    assert l.trace == [];
  }

  lemma AfterHelloShape(l: Local)
    requires LocalOk(l) && l.pc.AwaitHello? && l.nread < |l.arrived|
    ensures l.wire == [] && l.torn.None?
    ensures AcceptedName(l).Some? ==> ValidName(AcceptedName(l).value)
    ensures var k := AfterHello(l);
            && k.wire == l.wire && k.torn == l.torn && k.trace == l.trace && k.start == l.start
            && (if AcceptedName(l).Some? then k.pc.Registering? else k.pc.Refusing? || k.pc.Ended?)
  {
    hide Judge, Fits, FromWire, TornOk, Welcomed, ValidateUsername;
    AcceptedIsValid(l);
  }

  lemma AcceptedIsValid(l: Local)
    requires ReadOk(l) && l.nread < |l.arrived|
    ensures AcceptedName(l).Some? ==> ValidName(AcceptedName(l).value)
  {
    hide Judge, Fits, FromWire, ValidateUsername, WelcomeFrame, AlreadyTaken;
    var first := l.arrived[l.nread];
    if first.Frame? { HandshakeFits(first.frame, 0); }
  }

  /** A step that changes neither what was written nor what was taken from the mailbox. */
  lemma SameWire(cfg: Config, l: Local, a: Hub.Actor, pc: Pc, b: Hub.Actor, now: real)
    requires SessionOk(cfg, l, a, now) && b.mail.enq == a.mail.enq && b.mail.taken == a.mail.taken && b.key == a.key
    requires Linked(pc, b.stage) && WireOk(l.(pc := pc)) && TraceOk(cfg, Me(a), l.(pc := pc), now)
    requires !pc.Handling? && !pc.Replying? && !l.pc.Handling? && !l.pc.Replying?
    ensures SessionOk(cfg, l.(pc := pc), b, now)
  {
    hide Linked, WireOk, TraceOk, ValidateUsername;
  }

  lemma EndsCast(cfg: Config, l: Local, a: Hub.Actor, now: real)
    requires SessionOk(cfg, l, a, now) && Hub.Casting(a.stage)
    requires l.pc.Announcing? || l.pc.Relaying? || l.pc.Leaving?
    ensures SessionOk(cfg, AfterCast(l, now), a.(stage := if a.stage.Departing? then Hub.Releasing else Hub.Open), now)
  {
    hide Welcomed, TornOk, ValidateUsername, InOrder, Alive, FramesOf, MailPart, ReadOk;
    EmptyTrace(cfg, Me(a), now);
    AfterCastReads(l, now);
  }

  lemma EmptyTrace(cfg: Config, me: Str, now: real)
    ensures InOrder(now, [], now) && Alive(cfg, me, now, [])
  {
  }

  lemma AfterCastReads(l: Local, now: real)
    requires ReadOk(l)
    ensures ReadOk(AfterCast(l, now))
  {
  }

  lemma Polls(cfg: Config, l: Local, a: Hub.Actor, arm: Arm, b: Hub.Actor, now: real)
    requires SessionOk(cfg, l, a, now) && l.pc.Selecting?
    requires arm.OnRead? ==> NextInbound(l) == Some(arm.inbound)
    requires arm.OnMail? && arm.frame.Some? ==>
      a.mail.taken < |a.mail.enq| && arm.frame.value == a.mail.enq[a.mail.taken].frame && Ordinary(arm.frame.value)
    requires b == if arm.OnMail? && arm.frame.Some? then a.(mail := a.mail.(taken := a.mail.taken + 1)) else a
    ensures SessionOk(cfg, AfterPoll(l, arm), b, now)
  {
    hide Ordinary, ValidateUsername;
    if arm.OnMail? && arm.frame.Some? {
      TakeMail(l, a.mail);
    } else {
      PollMail(l, a.mail, arm);
    }
    PollKeeps(l, arm);
    hide LocalOk, MailOk;
  }

  lemma Handles(cfg: Config, l: Local, a: Hub.Actor, b: Hub.Actor, now: real)
    requires SessionOk(cfg, l, a, now) && l.pc.Handling? && a.key.Some?
    requires b.key == a.key && b.mail == a.mail
    requires b.stage == a.stage
          || (&& b.stage.Messaging?
              && React(cfg, Me(a), VarsAfter(cfg, Me(a), l.start, l.trace), now, l.pc.arm).1.Broadcast?)
    requires b.stage == a.stage ==>
      !React(cfg, Me(a), VarsAfter(cfg, Me(a), l.start, l.trace), now, l.pc.arm).1.Broadcast?
    ensures var r := React(cfg, Me(a), VarsAfter(cfg, Me(a), l.start, l.trace), now, l.pc.arm).1;
            SessionOk(cfg, AfterHandling(l, now, r), b, now)
  {
    hide React, VarsAfter, ValidateUsername;
    HandlingKeeps(cfg, Me(a), l, now);
    HandlingMail(cfg, Me(a), l, a.mail, now);
    HandlingTrace(cfg, Me(a), l, now);
    hide LocalOk, MailOk, TraceOk;
  }

  lemma WriteCompletes(cfg: Config, l: Local, a: Hub.Actor, now: real)
    requires SessionOk(cfg, l, a, now) && Writing(l.pc).Some?
    ensures SessionOk(cfg, AfterWrite(l), a, now)
  {
    WriteKeeps(l);
    WriteMail(l, a.mail);
    hide LocalOk, MailOk, ValidateUsername;
  }

  lemma WriteFails(cfg: Config, l: Local, a: Hub.Actor, bytes: nat, b: Hub.Actor, now: real)
    requires SessionOk(cfg, l, a, now) && Writing(l.pc).Some?
    requires bytes < 4 + |ServerPayload(Writing(l.pc).value.frame)|
    requires b.key == a.key && b.mail.enq == a.mail.enq && b.mail.taken == a.mail.taken
    requires if l.pc.Greeting? then b.stage.Releasing? else b.stage == a.stage
    ensures SessionOk(cfg, AfterFailure(l, bytes), b, now)
  {
    FailureKeeps(l, bytes);
    FailureMail(l, a.mail, bytes);
    hide LocalOk, ValidateUsername;
  }

  // ----- the session that takes the step -----

  function HubAfter(w: World, ev: Event): Hub.Hub
    requires Enabled(w, ev)
  {
    var e := HubEvent(w, ev);
    if e.Some? then Hub.Next(w.hub, e.value) else w.hub
  }

  predicate OwnOk(w: World, ev: Event)
    requires Enabled(w, ev) && IsSession(ev)
  {
    var h := HubAfter(w, ev);
    Hub.At(h, ev.s) && SessionOk(w.cfg, Moved(w, ev), h.actors[ev.s], w.clock)
  }

  predicate Before(w: World, ev: Event) {
    && Enabled(w, ev) && IsSession(ev) && At(w, ev.s)
    && SessionOk(w.cfg, w.locals[ev.s], w.hub.actors[ev.s], w.clock)
  }

  lemma OwnArrival(w: World, ev: Event)
    requires Before(w, ev) && (ev.Arrive? || ev.Hangup?)
    ensures OwnOk(w, ev)
  {
    hide Enabled, HubAfter, Moved, Inward, FromWire, LocalOk, ValidateUsername, Linked, TraceOk, MailOk;
    var x := if ev.Arrive? then Inward(ev.payload) else Eof;
    ArrivalEffect(w, ev, x);
    ArrivalKeeps(w.locals[ev.s], x);
    ArrivedOk(w.cfg, w.locals[ev.s], w.hub.actors[ev.s], x, w.clock);
  }

  lemma ArrivalEffect(w: World, ev: Event, x: Inbound)
    requires Enabled(w, ev) && (ev.Arrive? || ev.Hangup?) && x == if ev.Arrive? then Inward(ev.payload) else Eof
    ensures At(w, ev.s) && HubAfter(w, ev) == w.hub
    ensures Moved(w, ev) == w.locals[ev.s].(arrived := w.locals[ev.s].arrived + [x])
    ensures x.Frame? ==> FromWire(x.frame)
  {
    hide ParseClient, FromWire;
    if ev.Arrive? && ParseClient(ev.payload).Ok? { ParsedIsFromWire(ev.payload); }
  }

  lemma ArrivedOk(cfg: Config, l: Local, a: Hub.Actor, x: Inbound, now: real)
    requires SessionOk(cfg, l, a, now) && LocalOk(l.(arrived := l.arrived + [x]))
    ensures SessionOk(cfg, l.(arrived := l.arrived + [x]), a, now)
  {
    hide LocalOk, ValidateUsername, Linked;
  }

  lemma OwnHelloGone(w: World, ev: Event)
    requires Before(w, ev) && (ev.HelloShutdown? || ev.HelloTimeout?)
    ensures OwnOk(w, ev)
  {
    assert HubAfter(w, ev) == w.hub && Moved(w, ev) == w.locals[ev.s].(pc := Ended);
    hide Enabled, HubAfter, Moved, ReadOk;
    SameWire(w.cfg, w.locals[ev.s], w.hub.actors[ev.s], Ended, w.hub.actors[ev.s], w.clock);
  }

  lemma OwnHelloRead(w: World, s: Hub.Sid)
    requires Before(w, HelloRead(s))
    ensures OwnOk(w, HelloRead(s))
  {
    hide SessionOk;
    var l, a := w.locals[s], w.hub.actors[s];
    var b := HubAfter(w, HelloRead(s)).actors[s];
    ReadHello(w.cfg, l, a, b, w.clock);
  }

  lemma OwnRegister(w: World, s: Hub.Sid)
    requires Before(w, Register(s))
    ensures OwnOk(w, Register(s))
  {
    hide Enabled, HubAfter, Moved, Fits, AlreadyTaken, ValidateUsername;
    RegisterEffect(w, s);
    var name := NameOf(w, s);
    NameFramesFit(name, 0);
    var pc := if name in w.hub.registry then Refusing(Rejected(AlreadyTaken(name))) else Counting;
    SameWire(w.cfg, w.locals[s], w.hub.actors[s], pc, HubAfter(w, Register(s)).actors[s], w.clock);
  }

  lemma RegisterEffect(w: World, s: Hub.Sid)
    requires Enabled(w, Register(s))
    ensures Named(w, s) && Hub.At(HubAfter(w, Register(s)), s) && w.locals[s].pc.Registering?
    ensures var name, a, b := NameOf(w, s), w.hub.actors[s], HubAfter(w, Register(s)).actors[s];
            var pc := if name in w.hub.registry then Refusing(Rejected(AlreadyTaken(name))) else Counting;
            && Moved(w, Register(s)) == w.locals[s].(pc := pc)
            && b.key == a.key && b.mail == a.mail && Linked(pc, b.stage)
  {
    hide AlreadyTaken;
  }

  lemma OwnCountUp(w: World, s: Hub.Sid)
    requires Before(w, CountUp(s))
    ensures OwnOk(w, CountUp(s))
  {
    var l, a := w.locals[s], w.hub.actors[s];
    var b := HubAfter(w, CountUp(s)).actors[s];
    assert b == a.(stage := Hub.Silent) && Moved(w, CountUp(s)) == l.(pc := Reading);
    hide Enabled, HubAfter, Moved, ValidateUsername;
    SameWire(w.cfg, l, a, Reading, b, w.clock);
  }

  lemma OwnGreet(w: World, s: Hub.Sid)
    requires Before(w, Greet(s))
    ensures OwnOk(w, Greet(s))
  {
    hide Fits, ValidateUsername, Welcoming, ReadOk;
    var l, a := w.locals[s], w.hub.actors[s];
    var welcome := WelcomeFrame(NameOf(w, s), w.hub.occupancy);
    GreetEffect(w, s);
    hide Enabled, HubAfter, Moved, WelcomeFrame;
    SameWire(w.cfg, l, a, Greeting(welcome), a, w.clock);
  }

  lemma GreetEffect(w: World, s: Hub.Sid)
    requires Enabled(w, Greet(s))
    ensures var welcome := WelcomeFrame(NameOf(w, s), w.hub.occupancy);
            && HubAfter(w, Greet(s)) == w.hub && Moved(w, Greet(s)) == w.locals[s].(pc := Greeting(welcome))
            && welcome.Welcome? && Fits(welcome) && w.locals[s].pc.Reading?
  {
    hide Fits, Welcoming;
  }

  lemma OwnWriteDone(w: World, s: Hub.Sid)
    requires Before(w, WriteDone(s))
    ensures OwnOk(w, WriteDone(s))
  {
    hide SessionOk;
    WriteCompletes(w.cfg, w.locals[s], w.hub.actors[s], w.clock);
  }

  lemma OwnWriteFail(w: World, s: Hub.Sid, bytes: nat)
    requires Before(w, WriteFail(s, bytes))
    ensures OwnOk(w, WriteFail(s, bytes))
  {
    hide SessionOk;
    var b := HubAfter(w, WriteFail(s, bytes)).actors[s];
    WriteFails(w.cfg, w.locals[s], w.hub.actors[s], bytes, b, w.clock);
  }

  lemma OwnCutOff(w: World, s: Hub.Sid, bytes: nat)
    requires Before(w, CutOff(s, bytes))
    ensures OwnOk(w, CutOff(s, bytes))
  {
    hide SessionOk;
    WriteFails(w.cfg, w.locals[s], w.hub.actors[s], bytes, w.hub.actors[s], w.clock);
  }

  lemma OwnBegin(w: World, ev: Event)
    requires Before(w, ev) && (ev.BeginJoined? || ev.BeginDeparted?)
    ensures OwnOk(w, ev)
  {
    hide Enabled, HubAfter, Moved, ValidateUsername;
    BeginEffect(w, ev);
    var l, a := w.locals[ev.s], w.hub.actors[ev.s];
    SameWire(w.cfg, l, a, l.pc, HubAfter(w, ev).actors[ev.s], w.clock);
  }

  lemma BeginEffect(w: World, ev: Event)
    requires Enabled(w, ev) && (ev.BeginJoined? || ev.BeginDeparted?)
    ensures At(w, ev.s) && Hub.At(HubAfter(w, ev), ev.s) && Moved(w, ev) == w.locals[ev.s]
    ensures var l, a, b := w.locals[ev.s], w.hub.actors[ev.s], HubAfter(w, ev).actors[ev.s];
            && b.key == a.key && b.mail == a.mail && Linked(l.pc, b.stage) && (l.pc.Announcing? || l.pc.Leaving?)
  {
    hide Fits;
  }

  lemma OwnVisit(w: World, s: Hub.Sid, i: nat)
    requires HubRegistry.RegistryOk(w.hub) && Before(w, Visit(s, i))
    ensures OwnOk(w, Visit(s, i))
  {
    hide Enabled, HubAfter, Moved, ValidateUsername, HubRegistry.RegistryOk;
    OwnVisitEffect(w, s, i);
    var l, a := w.locals[s], w.hub.actors[s];
    SameWire(w.cfg, l, a, l.pc, HubAfter(w, Visit(s, i)).actors[s], w.clock);
  }

  lemma OwnVisitEffect(w: World, s: Hub.Sid, i: nat)
    requires HubRegistry.RegistryOk(w.hub) && Enabled(w, Visit(s, i)) && At(w, s)
    ensures Hub.At(HubAfter(w, Visit(s, i)), s) && Moved(w, Visit(s, i)) == w.locals[s]
    ensures var a, b := w.hub.actors[s], HubAfter(w, Visit(s, i)).actors[s];
            && Hub.Casting(a.stage) && b.key == a.key && b.mail == a.mail && b.stage == Hub.MarkSeen(a.stage, i)
    ensures var pc := w.locals[s].pc; pc.Announcing? || pc.Relaying? || pc.Leaving?
  {
    hide HubRegistry.RegistryOk, Enabled, HubAfter, Moved, Hub.Next, Hub.Enabled, Hub.Offer;
    VisitIsHubs(w, s, i);
    VisitingNow(w, s, i);
    HubBroadcasts.VisitDoes(w.hub, s, i);
  }

  lemma VisitIsHubs(w: World, s: Hub.Sid, i: nat)
    requires Enabled(w, Visit(s, i))
    ensures Hub.Enabled(w.hub, Hub.Visit(s, i)) && HubAfter(w, Visit(s, i)) == Hub.Next(w.hub, Hub.Visit(s, i))
    ensures Moved(w, Visit(s, i)) == w.locals[s]
  {
    hide Hub.Enabled, Hub.Next;
  }

  lemma VisitingNow(w: World, s: Hub.Sid, i: nat)
    requires Enabled(w, Visit(s, i))
    ensures i < |w.hub.claims| && Hub.At(w.hub, s) && Hub.Casting(w.hub.actors[s].stage)
    ensures var pc := w.locals[s].pc; pc.Announcing? || pc.Relaying? || pc.Leaving?
  {
  }

  lemma OwnEndCast(w: World, s: Hub.Sid)
    requires Before(w, EndCast(s))
    ensures OwnOk(w, EndCast(s))
  {
    hide SessionOk;
    EndsCast(w.cfg, w.locals[s], w.hub.actors[s], w.clock);
  }

  lemma QueuedIsOrdinary(h: Hub.Hub, s: Hub.Sid)
    requires PubsOrdinary(h) && HubSafety.Inv(h) && Hub.At(h, s)
    ensures forall j :: 0 <= j < |h.actors[s].mail.enq| ==> Ordinary(h.actors[s].mail.enq[j].frame)
  {
    hide Ordinary;
    forall j | 0 <= j < |h.actors[s].mail.enq| ensures Ordinary(h.actors[s].mail.enq[j].frame) {
      assert HubBroadcasts.ItemOk(h, s, h.actors[s].mail.enq[j]);
    }
  }

  lemma OwnPoll(w: World, s: Hub.Sid, tick: bool)
    requires Before(w, Poll(s, tick)) && PubsOrdinary(w.hub) && HubSafety.Inv(w.hub)
    ensures OwnOk(w, Poll(s, tick))
  {
    hide SessionOk, HubSafety.Inv, Ordinary, PubsOrdinary, Enabled, HubAfter, Moved, Chosen, AfterPoll;
    QueuedIsOrdinary(w.hub, s);
    PollEffect(w, s, tick);
    Polls(w.cfg, w.locals[s], w.hub.actors[s], Chosen(w, s, tick).value, HubAfter(w, Poll(s, tick)).actors[s], w.clock);
  }

  lemma PollEffect(w: World, s: Hub.Sid, tick: bool)
    requires Enabled(w, Poll(s, tick))
    ensures Named(w, s) && Chosen(w, s, tick).Some?
    ensures var l, a, arm := w.locals[s], w.hub.actors[s], Chosen(w, s, tick).value;
            && l.pc.Selecting? && Moved(w, Poll(s, tick)) == AfterPoll(l, arm)
            && (arm.OnRead? ==> NextInbound(l) == Some(arm.inbound))
            && (arm.OnMail? && arm.frame.Some? ==>
                  a.mail.taken < |a.mail.enq| && arm.frame.value == a.mail.enq[a.mail.taken].frame)
            && Hub.At(HubAfter(w, Poll(s, tick)), s)
            && HubAfter(w, Poll(s, tick)).actors[s]
               == if arm.OnMail? && arm.frame.Some? then a.(mail := a.mail.(taken := a.mail.taken + 1)) else a
  {
  }

  /** Only a valid Send leads to a broadcast, and it is broadcast as it is. */
  lemma BroadcastIsMessage(cfg: Config, me: Str, v: Vars, now: real, arm: Arm)
    ensures var r := React(cfg, me, v, now, arm).1;
            r.Broadcast? ==>
              && arm.OnRead? && arm.inbound.Frame? && arm.inbound.frame.Send?
              && ValidBody(arm.inbound.frame.body)
              && r.frame == Message(me, arm.inbound.frame.body)
  {
  }

  lemma OwnHandle(w: World, s: Hub.Sid)
    requires Before(w, Handle(s))
    ensures OwnOk(w, Handle(s))
  {
    hide SessionOk, Enabled, HubAfter, Moved, Reacts, AfterHandling;
    HandleEffect(w, s);
    OpenAtSelect(w.cfg, w.locals[s], w.hub.actors[s], w.clock);
    Handles(w.cfg, w.locals[s], w.hub.actors[s], HubAfter(w, Handle(s)).actors[s], w.clock);
  }

  lemma OpenAtSelect(cfg: Config, l: Local, a: Hub.Actor, now: real)
    requires SessionOk(cfg, l, a, now) && l.pc.Handling?
    ensures a.stage.Open?
  {
  }

  lemma HandleEffect(w: World, s: Hub.Sid)
    requires Enabled(w, Handle(s))
    ensures Named(w, s) && w.locals[s].pc.Handling? && Hub.At(HubAfter(w, Handle(s)), s)
    ensures var l, a, r := w.locals[s], w.hub.actors[s], Reacts(w, s, w.locals[s].pc.arm);
            var b := HubAfter(w, Handle(s)).actors[s];
            && r == React(w.cfg, Me(a), VarsAfter(w.cfg, Me(a), l.start, l.trace), w.clock, l.pc.arm).1
            && Moved(w, Handle(s)) == AfterHandling(l, w.clock, r)
            && b.key == a.key && b.mail == a.mail
            && if r.Broadcast? then b.stage.Messaging? else b.stage == a.stage
  {
    hide React, VarsAfter, Fits;
    var l, me := w.locals[s], NameOf(w, s);
    BroadcastIsMessage(w.cfg, me, VarsAfter(w.cfg, me, l.start, l.trace), w.clock, l.pc.arm);
  }

  lemma OwnRelease(w: World, s: Hub.Sid)
    requires HubRegistry.RegistryOk(w.hub) && Before(w, Release(s))
    ensures OwnOk(w, Release(s))
  {
    hide Enabled, HubAfter, Moved, ValidateUsername, HubRegistry.RegistryOk, ReadOk, Welcomed, TornOk, MailOk;
    ReleaseEffect(w, s);
    SameWire(w.cfg, w.locals[s], w.hub.actors[s], Uncounting, w.hub.actors[s].(stage := Hub.Removed), w.clock);
  }

  lemma ReleaseEffect(w: World, s: Hub.Sid)
    requires HubRegistry.RegistryOk(w.hub) && Enabled(w, Release(s))
    ensures Hub.At(HubAfter(w, Release(s)), s)
    ensures HubAfter(w, Release(s)).actors[s] == w.hub.actors[s].(stage := Hub.Removed)
    ensures Moved(w, Release(s)) == w.locals[s].(pc := Uncounting) && w.locals[s].pc.Releasing?
  {
    hide HubRegistry.RegistryOk;
    HubRegistry.RemoveFindsOwnEntry(w.hub, s);
  }

  lemma OwnFinish(w: World, ev: Event)
    requires Before(w, ev) && (ev.CountDown? || ev.Drop?)
    ensures OwnOk(w, ev)
  {
    hide Enabled, HubAfter, Moved, ValidateUsername;
    var pc := if ev.Drop? then Ended else Dropping;
    FinishEffect(w, ev, pc);
    SameWire(w.cfg, w.locals[ev.s], w.hub.actors[ev.s], pc, HubAfter(w, ev).actors[ev.s], w.clock);
  }

  lemma FinishEffect(w: World, ev: Event, pc: Pc)
    requires Enabled(w, ev) && (ev.CountDown? || ev.Drop?) && pc == if ev.Drop? then Ended else Dropping
    ensures Hub.At(HubAfter(w, ev), ev.s) && Linked(pc, HubAfter(w, ev).actors[ev.s].stage)
    ensures Moved(w, ev) == w.locals[ev.s].(pc := pc)
    ensures w.locals[ev.s].pc.Uncounting? || w.locals[ev.s].pc.Dropping?
    ensures var a, b := w.hub.actors[ev.s], HubAfter(w, ev).actors[ev.s];
            b.key == a.key && b.mail.enq == a.mail.enq && b.mail.taken == a.mail.taken
  {
  }

  lemma OwnStep(w: World, ev: Event)
    requires HubSafety.Inv(w.hub) && PubsOrdinary(w.hub) && Before(w, ev)
    ensures OwnOk(w, ev)
  {
    assert HubRegistry.RegistryOk(w.hub);
    hide HubSafety.Inv, OwnOk, Before, HubRegistry.RegistryOk, PubsOrdinary;
    if ev.Arrive? || ev.Hangup? { OwnArrival(w, ev); }
    else if ev.HelloRead? { OwnHelloRead(w, ev.s); }
    else if ev.HelloShutdown? || ev.HelloTimeout? { OwnHelloGone(w, ev); }
    else if ev.Register? { OwnRegister(w, ev.s); }
    else if ev.CountUp? { OwnCountUp(w, ev.s); }
    else if ev.Greet? { OwnGreet(w, ev.s); }
    else if ev.WriteDone? { OwnWriteDone(w, ev.s); }
    else if ev.WriteFail? { OwnWriteFail(w, ev.s, ev.bytes); }
    else if ev.CutOff? { OwnCutOff(w, ev.s, ev.bytes); }
    else if ev.BeginJoined? || ev.BeginDeparted? { OwnBegin(w, ev); }
    else if ev.Visit? { OwnVisit(w, ev.s, ev.i); }
    else if ev.EndCast? { OwnEndCast(w, ev.s); }
    else if ev.Poll? { OwnPoll(w, ev.s, ev.tick); }
    else if ev.Handle? { OwnHandle(w, ev.s); }
    else if ev.Release? { OwnRelease(w, ev.s); }
    else { OwnFinish(w, ev); }
  }

  // ----- every session, every run -----

  lemma PubsKept(w: World, ev: Event)
    requires PubsOrdinary(w.hub) && Enabled(w, ev)
    ensures PubsOrdinary(Next(w, ev).hub)
  {
    hide Ordinary;
    var e := HubEvent(w, ev);
    NextHub(w, ev);
    hide Next, Enabled, HubAfter;
    if e.Some? {
      PubsGrow(w.hub, e.value);
      if e.value.Publish? { PublishesOrdinary(w, ev); }
      hide Hub.Next, Hub.Enabled, HubEvent;
    }
  }

  lemma NextHub(w: World, ev: Event)
    requires Enabled(w, ev)
    ensures HubEvent(w, ev).Some? ==> Hub.Enabled(w.hub, HubEvent(w, ev).value)
    ensures Next(w, ev).hub == if HubEvent(w, ev).Some? then Hub.Next(w.hub, HubEvent(w, ev).value) else w.hub
    ensures LocallyEnabled(w, ev)
  {
    hide LocallyEnabled, HubEvent, Hub.Next, Hub.Enabled, Moved;
  }

  lemma PubsGrow(h: Hub.Hub, e: Hub.Event)
    requires Hub.Enabled(h, e)
    ensures !e.Publish? ==> Hub.Next(h, e).pubs == h.pubs
    ensures e.Publish? ==>
      Hub.Next(h, e).pubs == h.pubs + [Hub.Pub(e.s, e.frame, e.cause, e.at, Hub.HolderOf(h, Hub.NameOf(h, e.s)))]
  {
  }

  lemma PublishesOrdinary(w: World, ev: Event)
    requires LocallyEnabled(w, ev) && HubEvent(w, ev).Some? && HubEvent(w, ev).value.Publish?
    ensures ev.BeginJoined? || ev.BeginDeparted? || ev.Handle?
    ensures Ordinary(HubEvent(w, ev).value.frame)
  {
    hide Fits;
    if ev.Handle? {
      var l, me := w.locals[ev.s], NameOf(w, ev.s);
      BroadcastIsMessage(w.cfg, me, VarsAfter(w.cfg, me, l.start, l.trace), w.clock, l.pc.arm);
      hide React;
    }
  }

  lemma OtherSession(w: World, ev: Event, r: Hub.Sid)
    requires Inv(w) && Enabled(w, ev) && IsSession(ev) && At(w, r) && r != ev.s
    ensures var h := HubAfter(w, ev);
            |h.actors| >= |w.hub.actors| && SessionOk(w.cfg, w.locals[r], h.actors[r], w.clock)
  {
    hide HubSafety.Inv, PubsOrdinary, SessionOk, Bystander, Enabled, HubAfter;
    OthersKept(w, ev, r);
    assert SessionOk(w.cfg, w.locals[r], w.hub.actors[r], w.clock);
    BystanderOk(w.cfg, w.locals[r], w.hub.actors[r], HubAfter(w, ev).actors[r], w.clock);
  }

  lemma StillLocal(w: World, ev: Event)
    requires Enabled(w, ev)
    ensures LocallyEnabled(w, ev)
  {
    hide LocallyEnabled, HubEvent, Hub.Enabled;
  }

  lemma HubOwned(w: World)
    requires Inv(w)
    ensures HubRegistry.RegistryOk(w.hub)
  {
    hide SessionsOk, PubsOrdinary;
  }

  /** A session's step leaves every other session a bystander. */
  lemma OthersKept(w: World, ev: Event, r: Hub.Sid)
    requires Inv(w) && Enabled(w, ev) && IsSession(ev) && At(w, r) && r != ev.s
    ensures |HubAfter(w, ev).actors| == |w.hub.actors|
    ensures Bystander(w.hub.actors[r], HubAfter(w, ev).actors[r])
  {
    hide Inv, Enabled, LocallyEnabled, HubEvent, Hub.Next, Hub.Enabled, HubRegistry.RegistryOk;
    HubOwned(w);
    EventActor(w, ev);
    NextHub(w, ev);
    NumberKept(w, ev);
    if HubEvent(w, ev).Some? { BystandersKept(w.hub, HubEvent(w, ev).value, r); }
  }

  lemma EventActor(w: World, ev: Event)
    requires Enabled(w, ev) && IsSession(ev)
    ensures HubEvent(w, ev).Some? ==> !HubEvent(w, ev).value.Spawn? && HubEvent(w, ev).value.s == ev.s
    ensures At(w, ev.s)
  {
    hide Fits, Reacts, Hub.Enabled;
  }

  lemma SameNumber(h: Hub.Hub, e: Hub.Event)
    requires Hub.Enabled(h, e)
    ensures |Hub.Next(h, e).actors| == |h.actors| + (if e.Spawn? then 1 else 0)
  {
  }

  lemma NextIs(w: World, ev: Event)
    requires Enabled(w, ev) && IsSession(ev)
    ensures At(w, ev.s)
    ensures Next(w, ev) == w.(hub := HubAfter(w, ev), locals := w.locals[ev.s := Moved(w, ev)])
  {
    EventActor(w, ev);
    hide Enabled, HubEvent, Moved, Hub.Next;
  }

  lemma SessionAfter(w: World, ev: Event, r: Hub.Sid)
    requires Inv(w) && Enabled(w, ev) && IsSession(ev) && At(w, r)
    ensures var h := HubAfter(w, ev);
            && |h.actors| == |w.hub.actors|
            && SessionOk(w.cfg, if r == ev.s then Moved(w, ev) else w.locals[r], h.actors[r], w.clock)
  {
    NumberKept(w, ev);
    assert SessionOk(w.cfg, w.locals[r], w.hub.actors[r], w.clock);
    hide HubSafety.Inv, SessionOk, Enabled, LocallyEnabled, HubAfter, Moved, PubsOrdinary, SessionsOk;
    if r == ev.s {
      OwnStep(w, ev);
    } else {
      OtherSession(w, ev, r);
    }
  }

  lemma SessionStep(w: World, ev: Event)
    requires Inv(w) && Enabled(w, ev) && IsSession(ev)
    ensures SessionsOk(Next(w, ev))
  {
    hide Enabled, Next, Moved, HubAfter, SessionOk, HubSafety.Inv, PubsOrdinary;
    NextIs(w, ev);
    NumberKept(w, ev);
    forall r | 0 <= r < |w.locals|
      ensures SessionOk(w.cfg, if r == ev.s then Moved(w, ev) else w.locals[r], HubAfter(w, ev).actors[r], w.clock)
    {
      assert At(w, r);
      SessionAfter(w, ev, r);
    }
    Gathered(w, Next(w, ev), HubAfter(w, ev), ev.s, Moved(w, ev));
  }

  lemma Gathered(w: World, k: World, h: Hub.Hub, s: Hub.Sid, l: Local)
    requires s < |w.locals| == |h.actors|
    requires k == w.(hub := h, locals := w.locals[s := l])
    requires forall r :: 0 <= r < |w.locals| ==>
               SessionOk(w.cfg, if r == s then l else w.locals[r], h.actors[r], w.clock)
    ensures SessionsOk(k)
  {
    hide SessionOk;
  }

  lemma NumberKept(w: World, ev: Event)
    requires Enabled(w, ev) && IsSession(ev)
    ensures |HubAfter(w, ev).actors| == |w.hub.actors|
  {
    EventActor(w, ev);
    NextHub(w, ev);
    hide Enabled, HubEvent, Hub.Next, Hub.Enabled, LocallyEnabled;
    if HubEvent(w, ev).Some? { SameNumber(w.hub, HubEvent(w, ev).value); }
  }

  lemma SpawnStep(w: World)
    requires Inv(w) && Enabled(w, Spawn)
    ensures SessionsOk(Next(w, Spawn))
  {
    hide SessionOk, HubSafety.Inv, Next, Enabled, PubsOrdinary;
    var k := Next(w, Spawn);
    SpawnEffect(w);
    NewSessionOk(w.cfg, w.clock);
    forall r | 0 <= r < |k.locals| ensures SessionOk(k.cfg, k.locals[r], k.hub.actors[r], k.clock) {}
  }

  lemma SpawnEffect(w: World)
    requires Enabled(w, Spawn)
    ensures var k := Next(w, Spawn);
            && k.hub.actors == w.hub.actors + [Hub.NEWCOMER] && k.locals == w.locals + [Connect(w.clock)]
            && k.cfg == w.cfg && k.clock == w.clock
  {
  }

  lemma NewSessionOk(cfg: Config, now: real)
    ensures SessionOk(cfg, Connect(now), Hub.NEWCOMER, now)
  {
  }

  lemma ServerStep(w: World, ev: Event)
    requires Inv(w) && Enabled(w, ev) && !IsSession(ev) && !ev.Spawn?
    ensures SessionsOk(Next(w, ev))
  {
    hide SessionOk, HubSafety.Inv, Next, Enabled, PubsOrdinary;
    var k := Next(w, ev);
    ServerEffect(w, ev);
    forall r | 0 <= r < |k.locals| ensures SessionOk(k.cfg, k.locals[r], k.hub.actors[r], k.clock) {
      ClockOk(w.cfg, w.locals[r], w.hub.actors[r], w.clock, k.clock);
    }
  }

  lemma ServerEffect(w: World, ev: Event)
    requires Enabled(w, ev) && !IsSession(ev) && !ev.Spawn?
    ensures var k := Next(w, ev);
            k.hub == w.hub && k.locals == w.locals && k.cfg == w.cfg && k.clock >= w.clock
  {
  }

  lemma InvStep(w: World, ev: Event)
    requires Inv(w) && Enabled(w, ev)
    ensures Inv(Next(w, ev))
  {
    HubKept(w, ev);
    PubsKept(w, ev);
    hide HubSafety.Inv, SessionsOk, PubsOrdinary, Next, Enabled;
    if IsSession(ev) {
      SessionStep(w, ev);
    } else if ev.Spawn? {
      SpawnStep(w);
    } else {
      ServerStep(w, ev);
    }
  }

  lemma {:induction false} Safety(cfg: Config, now: real, evs: seq<Event>)
    requires ValidRun(Init(cfg, now), evs)
    ensures Inv(Run(Init(cfg, now), evs))
    decreases |evs|
  {
    hide Inv, Next, Enabled;
    if evs == [] {
      InitOk(cfg, now);
    } else {
      Safety(cfg, now, evs[..|evs| - 1]);
      InvStep(Run(Init(cfg, now), evs[..|evs| - 1]), evs[|evs| - 1]);
    }
  }

  lemma InitOk(cfg: Config, now: real)
    ensures Inv(Init(cfg, now))
  {
    HubSafety.InvInit();
  }
}
