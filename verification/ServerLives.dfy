/** What each session of the server keeps so that its life is one that SessionRuns describes. */
module ServerLives {
  import opened Wrappers
  import opened Utf8
  import opened Frames
  import opened SessionLoop
  import opened SessionTrace
  import opened SessionRuns
  import opened ServerMachine
  import opened ServerSessions
  import opened ServerSafety
  import opened ServerMessages
  import opened ServerTheorems
  import opened HubTalk
  import Hub = HubMachine
  import HubRegistry
  import HubSafety

  // ----- the handshake -----

  /** The first frame of all that is sent to the client, written whole, in part or not yet. */
  function FirstFrame(l: Local): Option<ServerFrame> {
    if l.wire != [] then Some(l.wire[0].frame)
    else if Unfinished(l, 0).Some? then Some(Unfinished(l, 0).value.frame)
    else None
  }

  /** The first thing the session has read. */
  function FirstRead(l: Local): Option<Inbound> { if l.nread > 0 && l.arrived != [] then Some(l.arrived[0]) else None }

  predicate Greeted(l: Local) { l.wire != [] && l.wire[0].frame.Welcome? }

  /** The handshake may answer this first frame in this way. */
  ghost predicate AnswerTo(first: Inbound, f: ServerFrame) {
    exists taken: bool, occupancy: int :: Answer(Opening(false, Some(first), taken, occupancy, Completes)) == Some(f)
  }

  predicate Asks(first: Inbound, name: Str) { first.Frame? && Judge(first.frame) == Accept(name) }

  ghost predicate OpeningOk(l: Local, key: Option<Hub.Key>) {
    && (l.pc.AwaitHello? ==> l.nread == 0)
    && (key.Some? ==> FirstRead(l).Some? && Asks(FirstRead(l).value, key.value.name))
    && (FirstFrame(l).Some? ==> FirstRead(l).Some? && AnswerTo(FirstRead(l).value, FirstFrame(l).value))
    && (l.pc.Ended? && FirstFrame(l).None? && FirstRead(l).Some? ==> !FirstRead(l).value.Frame?)
    && (Greeted(l) ==> key.Some?)
  }

  // ----- the loop -----

  /** After the loop. */
  predicate LoopLeft(pc: Pc) { pc.Leaving? || pc.Releasing? || pc.Uncounting? || pc.Dropping? || pc.Ended? }

  function Front(trace: seq<Beat>): seq<Beat>
    requires trace != []
  {
    trace[..|trace| - 1]
  }

  predicate TraceFits(trace: seq<Beat>) { forall i :: 0 <= i < |trace| ==> ArmFits(trace[i].arm) }

  /** What was written after Welcome, an unfinished frame included. */
  function LoopFrames(l: Local): seq<ServerFrame>
    requires l.wire != []
  {
    Whole(l.wire)[1..] + (if Unfinished(l, 0).Some? then [Unfinished(l, 0).value.frame] else [])
  }

  /** The turns account for every frame written in the loop, and for its end. */
  predicate LoopOk(cfg: Config, me: Str, l: Local) {
    && TraceFits(l.trace)
    && (l.trace != [] ==> Greeted(l) && Alive(cfg, me, l.start, Front(l.trace)))
    && (Greeted(l) ==> LoopFrames(l) == Writes(cfg, me, l.start, l.trace))
    && (Greeted(l) && Unfinished(l, 0).Some? ==>
          l.trace != [] && LastReaction(cfg, me, l.start, l.trace).Write?
          && (l.pc.Replying? ==> LastReaction(cfg, me, l.start, l.trace) == Write(l.pc.frame, l.pc.last)))
    && (Greeted(l) && LoopLeft(l.pc) ==>
          l.trace != [] && (l.torn.Some? || Final(LastReaction(cfg, me, l.start, l.trace))))
  }

  // ----- the broadcasts -----

  /** A session that has said its last has said Departed if it was let in, and else nothing. */
  predicate LastWord(l: Local, t: Talk) {
    l.pc.Refusing? || (LoopLeft(l.pc) && !l.pc.Leaving?) ==> t == if Greeted(l) then Over else Quiet
  }

  ghost predicate LifeOk(cfg: Config, l: Local, a: Hub.Actor, t: Talk) {
    OpeningOk(l, a.key) && LoopOk(cfg, Me(a), l) && LastWord(l, t)
  }

  ghost predicate LivesOk(w: World) {
    forall s :: 0 <= s < |w.locals| && At(w, s) ==>
      LifeOk(w.cfg, w.locals[s], w.hub.actors[s], SessionTalk(w.hub.pubs, s))
  }

  // ----- steps, apart from the world -----

  lemma OpeningKept(l: Local, k: Local, key: Option<Hub.Key>)
    requires OpeningOk(l, key) && l.arrived <= k.arrived && l.nread <= k.nread && (l.nread > 0 ==> l.arrived != [])
    requires k.pc.Ended? && FirstFrame(k).None? ==> (l.pc.Ended? && k.nread == l.nread) || k.nread == 0
    requires FirstFrame(k) == FirstFrame(l) && (Greeted(k) ==> Greeted(l) || key.Some?)
    requires k.pc.AwaitHello? ==> l.pc.AwaitHello? && k.nread == l.nread
    ensures OpeningOk(k, key)
  {
    hide Judge, AnswerTo;
  }

  /** A step that writes nothing and takes no turn. */
  lemma LoopKept(cfg: Config, me: Str, l: Local, k: Local, you: Str)
    requires LoopOk(cfg, me, l) && k.wire == l.wire && k.trace == l.trace
    requires l.trace == [] || (k.start == l.start && you == me)
    requires Greeted(l) ==>
      && k.torn == l.torn && Writing(l.pc).None? == Writing(k.pc).None? && (k.pc.Replying? ==> k.pc == l.pc)
      && !k.pc.Refusing? && !k.pc.Greeting?
      && (LoopLeft(k.pc) ==> LoopLeft(l.pc))
    ensures LoopOk(cfg, you, k)
  {
    hide Alive, LastReaction, ArmFits;
  }

  lemma LoopWritten(cfg: Config, me: Str, l: Local)
    requires LoopOk(cfg, me, l) && WireOk(l) && Writing(l.pc).Some?
    ensures LoopOk(cfg, me, AfterWrite(l))
  {
    hide Alive, LastReaction, ArmFits, Fits;
    var k := AfterWrite(l);
    if l.pc.Replying? {
      assert Whole(k.wire) == Whole(l.wire) + [l.pc.frame];
      assert LoopFrames(k) == LoopFrames(l);
    }
  }

  lemma LoopFailed(cfg: Config, me: Str, l: Local, bytes: nat)
    requires LoopOk(cfg, me, l) && WireOk(l) && Writing(l.pc).Some?
    ensures LoopOk(cfg, me, AfterFailure(l, bytes))
  {
    hide Alive, LastReaction, ArmFits, Fits;
  }

  lemma LoopHandled(cfg: Config, me: Str, l: Local, now: real)
    requires LoopOk(cfg, me, l) && l.pc.Handling? && Greeted(l) && l.torn.None?
    requires Alive(cfg, me, l.start, l.trace) && ArmFits(l.pc.arm)
    ensures var r := React(cfg, me, VarsAfter(cfg, me, l.start, l.trace), now, l.pc.arm).1;
            LoopOk(cfg, me, AfterHandling(l, now, r))
  {
    hide React, VarsAfter, ArmFits, LastReaction, Alive, Whole, LoopFrames;
    var r := React(cfg, me, VarsAfter(cfg, me, l.start, l.trace), now, l.pc.arm).1;
    TurnAdded(cfg, me, l.start, l.trace, Beat(now, l.pc.arm));
    var t := l.trace + [Beat(now, l.pc.arm)];
    assert Front(t) == l.trace;
    TurnWrites(l, now, r);
  }

  lemma TurnWrites(l: Local, now: real, r: Reaction)
    requires l.pc.Handling? && Greeted(l) && l.torn.None?
    ensures var k := AfterHandling(l, now, r);
            && Greeted(k) && LoopFrames(k) == LoopFrames(l) + (if r.Write? then [r.frame] else [])
            && (Unfinished(k, 0).Some? <==> r.Write?)
  {
    hide Whole;
  }

  // ----- the session that takes the step -----

  ghost predicate LivesOn(w: World, ev: Event)
    requires Enabled(w, ev) && IsSession(ev)
  {
    var h := HubAfter(w, ev);
    Hub.At(h, ev.s) && LifeOk(w.cfg, Moved(w, ev), h.actors[ev.s], SessionTalk(h.pubs, ev.s))
  }

  /** What is known of the session before its step. */
  ghost predicate Lived(w: World, ev: Event) {
    && Enabled(w, ev) && IsSession(ev) && At(w, ev.s)
    && HubRegistry.RegistryOk(w.hub) && TalksOk(w.hub)
    && SessionOk(w.cfg, w.locals[ev.s], w.hub.actors[ev.s], w.clock)
    && LifeOk(w.cfg, w.locals[ev.s], w.hub.actors[ev.s], SessionTalk(w.hub.pubs, ev.s))
  }

  lemma OwnKey(w: World, ev: Event)
    requires HubRegistry.RegistryOk(w.hub) && Enabled(w, ev) && IsSession(ev) && At(w, ev.s)
    ensures Hub.At(HubAfter(w, ev), ev.s)
    ensures !ev.HelloRead? ==> HubAfter(w, ev).actors[ev.s].key == w.hub.actors[ev.s].key
  {
    hide HubRegistry.RegistryOk, Enabled, HubEvent, LocallyEnabled, Hub.Next, Hub.Enabled;
    EventActor(w, ev);
    NextHub(w, ev);
    NumberKept(w, ev);
    var e := HubEvent(w, ev);
    if e.Some? {
      if e.value.MakeKey? { MakesKeyAtHello(w, ev); } else { KeyKept(w.hub, e.value, ev.s); }
    }
  }

  lemma SamePubs(w: World, ev: Event)
    requires Enabled(w, ev) && IsSession(ev) && !ev.BeginJoined? && !ev.BeginDeparted? && !ev.Handle?
    ensures HubAfter(w, ev).pubs == w.hub.pubs
  {
    hide Enabled, HubEvent, Moved, Next, HubAfter;
    NextIs(w, ev);
    PubsPushed(w, ev);
  }

  /** Neither a write nor a turn of the loop. */
  predicate Plain(ev: Event) { !ev.WriteDone? && !ev.WriteFail? && !ev.CutOff? && !ev.Handle? }

  lemma PlainSteps(w: World, ev: Event)
    requires Enabled(w, ev) && IsSession(ev) && At(w, ev.s) && Plain(ev)
    ensures var l, k := w.locals[ev.s], Moved(w, ev);
            k.wire == l.wire && k.torn == l.torn && l.arrived <= k.arrived
  {
    hide Hub.Enabled, React, Fits, Judge, HubEvent, ParseClient;
  }

  /** In a session that has been greeted these steps leave its place in writing, and its being done,
      as they are. */
  lemma GreetedSteps(w: World, ev: Event)
    requires Enabled(w, ev) && IsSession(ev) && At(w, ev.s) && Plain(ev) && WireOk(w.locals[ev.s])
    requires Greeted(w.locals[ev.s])
    requires Linked(w.locals[ev.s].pc, w.hub.actors[ev.s].stage)
    ensures var l, k := w.locals[ev.s], Moved(w, ev);
            && Writing(l.pc).None? == Writing(k.pc).None? && (k.pc.Replying? ==> k.pc == l.pc)
            && !k.pc.Refusing? && !k.pc.Greeting? && (LoopLeft(k.pc) ==> LoopLeft(l.pc))
  {
    hide Hub.Enabled, React, Fits, Judge, HubEvent, ParseClient, Welcomed, ServerPayload;
  }

  lemma StartsLate(w: World, ev: Event)
    requires Enabled(w, ev) && IsSession(ev) && At(w, ev.s) && Plain(ev)
    requires TraceOk(w.cfg, Me(w.hub.actors[ev.s]), w.locals[ev.s], w.clock)
    ensures var l, k := w.locals[ev.s], Moved(w, ev);
            k.trace == l.trace && (l.trace == [] || k.start == l.start)
  {
    hide Enabled, Moved, InOrder, Alive;
    MovedTrace(w, ev);
  }

  lemma PlainLoop(w: World, ev: Event)
    requires Lived(w, ev) && Plain(ev)
    ensures Hub.At(HubAfter(w, ev), ev.s)
    ensures LoopOk(w.cfg, Me(HubAfter(w, ev).actors[ev.s]), Moved(w, ev))
  {
    hide Enabled, Moved, HubAfter, HubRegistry.RegistryOk, TalksOk, OpeningOk, LoopOk, LastWord, WireOk, TraceOk,
      ReadOk, MailOk, ValidateUsername;
    var l, a := w.locals[ev.s], w.hub.actors[ev.s];
    PlainSteps(w, ev);
    StartsLate(w, ev);
    OwnKey(w, ev);
    if Greeted(l) { GreetedSteps(w, ev); }
    if ev.HelloRead? { NoTurnsYet(w, ev); }
    LoopKept(w.cfg, Me(a), l, Moved(w, ev), Me(HubAfter(w, ev).actors[ev.s]));
  }

  lemma ReadSoFar(w: World, ev: Event)
    requires Lived(w, ev)
    ensures var l := w.locals[ev.s]; (l.nread > 0 ==> l.arrived != []) && (l.pc.AwaitHello? ==> l.nread == 0)
  {
    hide HubRegistry.RegistryOk, TalksOk, LoopOk, LastWord, Enabled, WireOk, TraceOk, MailOk, Judge,
      ValidateUsername, AnswerTo;
  }

  lemma NoTurnsYet(w: World, ev: Event)
    requires Lived(w, ev) && ev.HelloRead?
    ensures w.locals[ev.s].trace == [] && w.locals[ev.s].wire == [] && w.locals[ev.s].pc.AwaitHello?
    ensures w.locals[ev.s].nread == 0
  {
    hide HubRegistry.RegistryOk, TalksOk;
  }

  lemma HelloOpening(w: World, s: Hub.Sid)
    requires Lived(w, HelloRead(s)) && Hub.At(HubAfter(w, HelloRead(s)), s)
    ensures OpeningOk(Moved(w, HelloRead(s)), HubAfter(w, HelloRead(s)).actors[s].key)
  {
    hide HubRegistry.RegistryOk, TalksOk, LoopOk, LastWord, Enabled, HubAfter, Moved, Judge, SessionOk, LifeOk,
      OpeningOk;
    NoTurnsYet(w, HelloRead(s));
    HelloEffect(w, s);
    NoKeyYet(w, s);
    FirstAnswer(w.locals[s], HubAfter(w, HelloRead(s)).actors[s].key);
  }

  lemma NoKeyYet(w: World, s: Hub.Sid)
    requires Lived(w, HelloRead(s))
    ensures w.hub.actors[s].key.None? && w.locals[s].torn.None?
  {
    hide TalksOk, OpeningOk, LoopOk, LastWord, TraceOk, MailOk, ReadOk, ValidateUsername;
  }

  lemma HelloEffect(w: World, s: Hub.Sid)
    requires Enabled(w, HelloRead(s))
    ensures At(w, s) && Hub.At(HubAfter(w, HelloRead(s)), s) && w.locals[s].nread < |w.locals[s].arrived|
    ensures Moved(w, HelloRead(s)) == AfterHello(w.locals[s])
    ensures var key := HubAfter(w, HelloRead(s)).actors[s].key;
            match AcceptedName(w.locals[s])
            case None => key == w.hub.actors[s].key
            case Some(name) => key.Some? && key.value.name == name
  {
    hide Judge;
  }

  lemma FirstAnswer(l: Local, key: Option<Hub.Key>)
    requires l.nread == 0 < |l.arrived| && l.wire == [] && l.torn.None?
    requires match AcceptedName(l) case None => key == None case Some(name) => key.Some? && key.value.name == name
    ensures OpeningOk(AfterHello(l), key)
  {
    hide Judge;
    var first := l.arrived[0];
    if first.Frame? && Judge(first.frame).Refuse? {
      assert Answer(Opening(false, Some(first), false, 0, Completes)) == Some(Judge(first.frame).frame);
    }
  }

  lemma RegisterOpening(w: World, s: Hub.Sid)
    requires Lived(w, Register(s)) && Hub.At(HubAfter(w, Register(s)), s)
    ensures OpeningOk(Moved(w, Register(s)), HubAfter(w, Register(s)).actors[s].key)
  {
    hide HubRegistry.RegistryOk, TalksOk, LoopOk, LastWord, Enabled, HubAfter, Moved, Judge, AlreadyTaken, TraceOk,
      MailOk, ReadOk, ValidateUsername;
    RegisterEffect(w, s);
    var l, name := w.locals[s], NameOf(w, s);
    assert Answer(Opening(false, FirstRead(l), true, 0, Completes)) == Some(Rejected(AlreadyTaken(name)));
  }

  lemma GreetOpening(w: World, s: Hub.Sid)
    requires Lived(w, Greet(s)) && Hub.At(HubAfter(w, Greet(s)), s)
    ensures OpeningOk(Moved(w, Greet(s)), HubAfter(w, Greet(s)).actors[s].key)
  {
    hide HubRegistry.RegistryOk, TalksOk, LoopOk, LastWord, Enabled, HubAfter, Moved, Judge, WelcomeFrame, Fits,
      TraceOk, MailOk, ReadOk, ValidateUsername;
    GreetEffect(w, s);
    GreetedIsNamed(w, s);
    var l, name := w.locals[s], NameOf(w, s);
    assert Answer(Opening(false, FirstRead(l), false, w.hub.occupancy, Completes))
        == Some(WelcomeFrame(name, w.hub.occupancy));
  }

  lemma GreetedIsNamed(w: World, s: Hub.Sid)
    requires Enabled(w, Greet(s))
    ensures Named(w, s)
  {
    hide Fits, WelcomeFrame;
  }

  lemma SameFirstFrame(w: World, ev: Event)
    requires Enabled(w, ev) && IsSession(ev) && At(w, ev.s) && Plain(ev) && WireOk(w.locals[ev.s])
    requires !ev.HelloRead? && !ev.Register? && !ev.Greet?
    requires w.locals[ev.s].pc.AwaitHello? ==> w.locals[ev.s].nread == 0
    ensures FirstFrame(Moved(w, ev)) == FirstFrame(w.locals[ev.s])
    ensures var l, k := w.locals[ev.s], Moved(w, ev);
            && l.nread <= k.nread
            && (k.pc.Ended? && FirstFrame(k).None? ==> (l.pc.Ended? && k.nread == l.nread) || k.nread == 0)
    ensures Moved(w, ev).pc.AwaitHello? ==> w.locals[ev.s].pc.AwaitHello? && Moved(w, ev).nread == w.locals[ev.s].nread
  {
    hide Hub.Enabled, React, Fits, Judge, HubEvent, ParseClient, Ordinary, ServerPayload;
  }

  lemma PlainOpening(w: World, ev: Event)
    requires Lived(w, ev) && Plain(ev) && Hub.At(HubAfter(w, ev), ev.s)
    ensures OpeningOk(Moved(w, ev), HubAfter(w, ev).actors[ev.s].key)
  {
    hide HubRegistry.RegistryOk, TalksOk, OpeningOk, LoopOk, LastWord, Enabled, HubAfter, Moved, TraceOk, MailOk,
      ReadOk, WireOk, ValidateUsername;
    if ev.HelloRead? { HelloOpening(w, ev.s); }
    else if ev.Register? { RegisterOpening(w, ev.s); }
    else if ev.Greet? { GreetOpening(w, ev.s); }
    else {
      PlainSteps(w, ev);
      ReadSoFar(w, ev);
      SameFirstFrame(w, ev);
      OwnKey(w, ev);
      OpeningKept(w.locals[ev.s], Moved(w, ev), w.hub.actors[ev.s].key);
    }
  }

  lemma NamedUnlessIdle(w: World, s: Hub.Sid)
    requires HubRegistry.RegistryOk(w.hub) && At(w, s) && !w.hub.actors[s].stage.Idle?
    ensures w.hub.actors[s].key.Some?
  {
  }

  // ----- last words -----

  /** Once done a session stays as greeted or ungreeted as it is; it is done after its Departed if
      it was greeted, and before it could say anything if not. */
  lemma LastSteps(w: World, ev: Event)
    requires Enabled(w, ev) && IsSession(ev) && At(w, ev.s) && WireOk(w.locals[ev.s])
    requires Linked(w.locals[ev.s].pc, w.hub.actors[ev.s].stage)
    requires var pc := Moved(w, ev).pc; pc.Refusing? || (LoopLeft(pc) && !pc.Leaving?)
    ensures !ev.BeginJoined? && !ev.BeginDeparted? && !ev.Handle?
    ensures var l, k, st := w.locals[ev.s], Moved(w, ev), w.hub.actors[ev.s].stage;
            if l.pc.Refusing? || (LoopLeft(l.pc) && !l.pc.Leaving?) then Greeted(k) == Greeted(l)
            else if st.Departing? then Greeted(k)
            else !Greeted(k) && (st.Idle? || st.Registering? || st.Silent?)
  {
    hide Enabled, React, Fits, Judge, HubEvent, ParseClient, ServerPayload;
    StillLocal(w, ev);
    if ev.EndCast? { CastEnds(w, ev.s); }
  }

  lemma CastEnds(w: World, s: Hub.Sid)
    requires Enabled(w, EndCast(s))
    ensures At(w, s) && Hub.Casting(w.hub.actors[s].stage)
  {
  }

  lemma OwnLastWord(w: World, ev: Event)
    requires Lived(w, ev)
    ensures LastWord(Moved(w, ev), SessionTalk(HubAfter(w, ev).pubs, ev.s))
  {
    hide HubRegistry.RegistryOk, OpeningOk, LoopOk, Enabled, HubAfter, Moved, TraceOk, MailOk, ReadOk, WireOk,
      ValidateUsername, SessionTalk;
    var pc := Moved(w, ev).pc;
    if pc.Refusing? || (LoopLeft(pc) && !pc.Leaving?) {
      LastSteps(w, ev);
      SamePubs(w, ev);
      assert TalkFits(w.hub.actors[ev.s].stage, SessionTalk(w.hub.pubs, ev.s));
    }
  }

  // ----- writes and turns -----

  lemma WriteLives(w: World, ev: Event)
    requires Lived(w, ev) && (ev.WriteDone? || ev.WriteFail? || ev.CutOff?)
    ensures Hub.At(HubAfter(w, ev), ev.s)
    ensures LoopOk(w.cfg, Me(HubAfter(w, ev).actors[ev.s]), Moved(w, ev))
    ensures OpeningOk(Moved(w, ev), HubAfter(w, ev).actors[ev.s].key)
  {
    hide HubRegistry.RegistryOk, TalksOk, OpeningOk, LoopOk, LastWord, Enabled, HubAfter, Moved, TraceOk, MailOk,
      ReadOk, WireOk, ValidateUsername, AfterWrite, AfterFailure;
    var l, a := w.locals[ev.s], w.hub.actors[ev.s];
    OwnKey(w, ev);
    WriteMovesOn(w, ev);
    ReadSoFar(w, ev);
    if Writing(l.pc).Some? && !l.pc.Refusing? { NamedUnlessIdle(w, ev.s); }
    WriteOpens(l);
    if ev.WriteDone? {
      LoopWritten(w.cfg, Me(a), l);
      OpeningKept(l, AfterWrite(l), a.key);
    } else {
      LoopFailed(w.cfg, Me(a), l, ev.bytes);
      WriteBreaks(l, ev.bytes);
      OpeningKept(l, AfterFailure(l, ev.bytes), a.key);
    }
  }

  lemma WriteMovesOn(w: World, ev: Event)
    requires Enabled(w, ev) && (ev.WriteDone? || ev.WriteFail? || ev.CutOff?)
    ensures At(w, ev.s) && Writing(w.locals[ev.s].pc).Some?
    ensures Moved(w, ev) == if ev.WriteDone? then AfterWrite(w.locals[ev.s]) else AfterFailure(w.locals[ev.s], ev.bytes)
  {
    hide ServerPayload;
  }

  lemma WriteOpens(l: Local)
    requires WireOk(l) && Writing(l.pc).Some?
    ensures var k := AfterWrite(l);
            && FirstFrame(k) == FirstFrame(l) && FirstFrame(k).Some?
            && k.arrived == l.arrived && k.nread == l.nread && !k.pc.AwaitHello?
            && (Greeted(k) ==> Greeted(l) || l.pc.Greeting?)
  {
    hide Fits;
  }

  lemma WriteBreaks(l: Local, bytes: nat)
    requires WireOk(l) && Writing(l.pc).Some?
    ensures var k := AfterFailure(l, bytes);
            && FirstFrame(k) == FirstFrame(l) && FirstFrame(k).Some? && k.arrived == l.arrived && k.nread == l.nread
            && !k.pc.AwaitHello? && Greeted(k) == Greeted(l)
  {
    hide Fits;
  }

  lemma TurnLives(w: World, s: Hub.Sid)
    requires Lived(w, Handle(s))
    ensures Hub.At(HubAfter(w, Handle(s)), s)
    ensures LoopOk(w.cfg, Me(HubAfter(w, Handle(s)).actors[s]), Moved(w, Handle(s)))
    ensures OpeningOk(Moved(w, Handle(s)), HubAfter(w, Handle(s)).actors[s].key)
  {
    hide HubRegistry.RegistryOk, TalksOk, OpeningOk, LoopOk, LastWord, Enabled, HubAfter, Moved, MailOk, ReadOk,
      WireOk, Reacts, ValidateUsername, AfterHandling, React, VarsAfter, Alive, InOrder;
    var l, a := w.locals[s], w.hub.actors[s];
    OwnKey(w, Handle(s));
    HandleEffect(w, s);
    ReadSoFar(w, Handle(s));
    TurnFits(l);
    LoopHandled(w.cfg, Me(a), l, w.clock);
    TurnOpens(l, w.clock, Reacts(w, s, l.pc.arm));
    OpeningKept(l, Moved(w, Handle(s)), a.key);
  }

  lemma TurnFits(l: Local)
    requires LocalOk(l) && l.pc.Handling?
    ensures Greeted(l) && l.torn.None? && ArmFits(l.pc.arm)
  {
    hide FromWire;
  }

  lemma TurnOpens(l: Local, now: real, r: Reaction)
    requires l.pc.Handling? && Greeted(l)
    ensures var k := AfterHandling(l, now, r);
            && FirstFrame(k) == FirstFrame(l) && k.arrived == l.arrived && k.nread == l.nread
            && !k.pc.AwaitHello? && !k.pc.Ended? && Greeted(k)
  {
  }

  lemma OwnLife(w: World, ev: Event)
    requires Lived(w, ev)
    ensures LivesOn(w, ev)
  {
    hide HubRegistry.RegistryOk, TalksOk, OpeningOk, LoopOk, LastWord, Enabled, HubAfter, Moved, SessionOk;
    OwnLastWord(w, ev);
    if Plain(ev) {
      PlainLoop(w, ev);
      PlainOpening(w, ev);
    } else if ev.Handle? {
      TurnLives(w, ev.s);
    } else {
      WriteLives(w, ev);
    }
  }

  // ----- every session, every run -----

  lemma OtherLife(w: World, ev: Event, r: Hub.Sid)
    requires Inv(w) && LivesOk(w) && Enabled(w, ev) && IsSession(ev) && At(w, r) && r != ev.s
    ensures At(Next(w, ev), r)
    ensures var k := Next(w, ev); LifeOk(k.cfg, k.locals[r], k.hub.actors[r], SessionTalk(k.hub.pubs, r))
  {
    hide Inv, Enabled, Next, HubAfter, Moved, OpeningOk, LoopOk, LastWord, HubEvent, SessionTalk;
    NextIs(w, ev);
    OtherKey(w, ev, r);
    OtherTalk(w, ev, r);
    assert LifeOk(w.cfg, w.locals[r], w.hub.actors[r], SessionTalk(w.hub.pubs, r));
  }

  lemma OtherKey(w: World, ev: Event, r: Hub.Sid)
    requires Inv(w) && Enabled(w, ev) && IsSession(ev) && At(w, r) && r != ev.s
    ensures Hub.At(HubAfter(w, ev), r) && HubAfter(w, ev).actors[r].key == w.hub.actors[r].key
  {
    hide Inv, Enabled, HubAfter;
    OthersKept(w, ev, r);
  }

  lemma OtherTalk(w: World, ev: Event, r: Hub.Sid)
    requires Enabled(w, ev) && (IsSession(ev) ==> r != ev.s)
    ensures SessionTalk(Next(w, ev).hub.pubs, r) == SessionTalk(w.hub.pubs, r)
  {
    hide Enabled, Next, HubEvent;
    PubsPushed(w, ev);
    var p, q := w.hub.pubs, Next(w, ev).hub.pubs;
    if q != p { assert q[..|q| - 1] == p; }
  }

  lemma LivedHere(w: World, ev: Event)
    requires Inv(w) && LivesOk(w) && Enabled(w, ev) && IsSession(ev) && At(w, ev.s)
    ensures Lived(w, ev)
  {
    hide Enabled, SessionOk, LifeOk, PubsOrdinary, HubRegistry.RegistryOk, TalksOk;
  }

  lemma SessionLife(w: World, ev: Event, r: Hub.Sid)
    requires Inv(w) && LivesOk(w) && Enabled(w, ev) && IsSession(ev) && At(w, r)
    ensures At(Next(w, ev), r)
    ensures var k := Next(w, ev); LifeOk(k.cfg, k.locals[r], k.hub.actors[r], SessionTalk(k.hub.pubs, r))
  {
    hide Inv, Enabled, Next, HubAfter, Moved, LivesOk, LifeOk, Lived;
    if r == ev.s {
      NextIs(w, ev);
      LivedHere(w, ev);
      OwnLife(w, ev);
    } else {
      OtherLife(w, ev, r);
    }
  }

  lemma NewLife(cfg: Config, now: real)
    ensures LifeOk(cfg, Connect(now), Hub.NEWCOMER, Quiet)
  {
  }

  lemma ServerLife(w: World, ev: Event)
    requires Inv(w) && LivesOk(w) && Enabled(w, ev) && !IsSession(ev) && !ev.Spawn?
    ensures LivesOk(Next(w, ev))
  {
    hide Inv, Enabled, Next, LifeOk;
    ServerEffect(w, ev);
  }

  lemma SpawnLife(w: World)
    requires Inv(w) && LivesOk(w) && Enabled(w, Spawn)
    ensures LivesOk(Next(w, Spawn))
  {
    hide HubSafety.Inv, PubsOrdinary, SessionOk, Enabled, Next, LifeOk, SessionTalk;
    var k := Next(w, Spawn);
    SpawnEffect(w);
    SpawnPubs(w);
    NewLife(w.cfg, w.clock);
    StrangerIsQuiet(w.hub.pubs, |w.hub.actors|);
    forall r | 0 <= r < |k.locals| && At(k, r)
      ensures LifeOk(k.cfg, k.locals[r], k.hub.actors[r], SessionTalk(k.hub.pubs, r))
    {
      if r < |w.locals| { assert At(w, r); }
    }
  }

  lemma SpawnPubs(w: World)
    requires Inv(w) && Enabled(w, Spawn)
    ensures Next(w, Spawn).hub.pubs == w.hub.pubs
    ensures forall p :: 0 <= p < |w.hub.pubs| ==> w.hub.pubs[p].sid < |w.hub.actors|
  {
    hide PubsOrdinary, SessionsOk;
    assert TalksOk(w.hub);
  }

  lemma LivesStep(w: World, ev: Event)
    requires Inv(w) && LivesOk(w) && Enabled(w, ev)
    ensures LivesOk(Next(w, ev))
  {
    hide HubSafety.Inv, PubsOrdinary, SessionOk, Enabled, Next, LivesOk;
    if IsSession(ev) {
      var k := Next(w, ev);
      NextIs(w, ev);
      forall r | 0 <= r < |k.locals| && At(k, r)
        ensures LifeOk(k.cfg, k.locals[r], k.hub.actors[r], SessionTalk(k.hub.pubs, r))
      {
        assert At(w, r);
        SessionLife(w, ev, r);
      }
      AllLive(k);
    } else if ev.Spawn? {
      SpawnLife(w);
    } else {
      ServerLife(w, ev);
    }
  }

  lemma AllLive(k: World)
    requires forall r :: 0 <= r < |k.locals| && At(k, r) ==>
               LifeOk(k.cfg, k.locals[r], k.hub.actors[r], SessionTalk(k.hub.pubs, r))
    ensures LivesOk(k)
  {
  }

  lemma {:induction false} LivesSafety(cfg: Config, now: real, evs: seq<Event>)
    requires ValidRun(Init(cfg, now), evs)
    ensures LivesOk(Run(Init(cfg, now), evs))
    decreases |evs|
  {
    hide Enabled, Next, Inv, LifeOk;
    if evs != [] {
      var front := evs[..|evs| - 1];
      LivesSafety(cfg, now, front);
      Safety(cfg, now, front);
      LivesStep(Run(Init(cfg, now), front), evs[|evs| - 1]);
    }
  }
}
