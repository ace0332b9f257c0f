/** The whole server as a step machine: the accept loop, and for each connection the session that
    reads, decides, writes and drives the hub (server/src/lib.rs, server/src/actor/session.rs).

    The environment lets time pass, delivers payloads, hangs up, cancels, and decides whether a
    pending write completes or fails after any number of its bytes. */
module ServerMachine {
  import opened Wrappers
  import opened Utf8
  import opened Frames
  import opened SessionLoop
  import opened SessionTrace
  import Hub = HubMachine

  // ----- state -----

  /** Where a session is in its program. */
  datatype Pc =
    | AwaitHello
    | Refusing(frame: ServerFrame)                          // writing Rejected
    | Registering                                           // try_register: insert
    | Counting                                              // try_register: count up
    | Reading                                               // read the occupancy for Welcome
    | Greeting(frame: ServerFrame)                          // writing Welcome
    | Announcing                                            // broadcasting Joined
    | Selecting                                             // at the select
    | Handling(arm: Arm)                                    // an arm has been chosen
    | Replying(frame: ServerFrame, mail: bool, last: bool)  // writing inside the loop
    | Relaying                                              // broadcasting a Message
    | Leaving                                               // broadcasting Departed
    | Releasing                                             // dropping the claim: remove
    | Uncounting                                            // dropping the claim: count down
    | Dropping                                              // dropping the mailbox
    | Ended

  /** A frame written whole, and whether it came from the mailbox. */
  datatype Sent = Sent(frame: ServerFrame, mail: bool)

  /** A frame of which only some bytes were written. */
  datatype Torn = Torn(frame: ServerFrame, mail: bool, bytes: nat)

  /** `arrived` is everything the reader will ever hand over, of which a prefix has been read.
      `trace` holds the turns of the serve loop, which began at `start`. */
  datatype Local = Local(
    pc: Pc,
    arrived: seq<Inbound>,
    nread: nat,
    wire: seq<Sent>,
    torn: Option<Torn>,
    born: real,
    start: real,
    trace: seq<Beat>)

  datatype ServerPc = Listening | Spawning | Draining(failed: bool) | Returned(failed: bool)

  datatype World = World(
    cfg: Config,
    hub: Hub.Hub,
    locals: seq<Local>,
    clock: real,
    cancelled: bool,
    server: ServerPc)

  function Connect(now: real): Local { Local(AwaitHello, [], 0, [], None, now, now, []) }

  function Init(cfg: Config, now: real): World { World(cfg, Hub.EMPTY_HUB, [], now, false, Listening) }

  // ----- steps -----

  datatype Event =
    // the environment
    | Advance(to: real)
    | Arrive(s: Hub.Sid, payload: Bytes)
    | Hangup(s: Hub.Sid)
    | Cancel
    // the accept loop
    | AcceptReady
    | Spawn
    | AcceptError
    | StopListening
    | Return
    // a session's handshake
    | HelloShutdown(s: Hub.Sid)
    | HelloTimeout(s: Hub.Sid)
    | HelloRead(s: Hub.Sid)
    | Register(s: Hub.Sid)
    | CountUp(s: Hub.Sid)
    | Greet(s: Hub.Sid)
    // writes
    | WriteDone(s: Hub.Sid)
    | WriteFail(s: Hub.Sid, bytes: nat)
    | CutOff(s: Hub.Sid, bytes: nat)
    // broadcasts
    | BeginJoined(s: Hub.Sid)
    | BeginDeparted(s: Hub.Sid)
    | Visit(s: Hub.Sid, i: nat)
    | EndCast(s: Hub.Sid)
    // the serve loop
    | Poll(s: Hub.Sid, tick: bool)
    | Handle(s: Hub.Sid)
    // clean-up
    | Release(s: Hub.Sid)
    | CountDown(s: Hub.Sid)
    | Drop(s: Hub.Sid)

  predicate At(w: World, s: Hub.Sid) { s < |w.locals| && s < |w.hub.actors| }

  predicate Named(w: World, s: Hub.Sid) { At(w, s) && w.hub.actors[s].key.Some? }

  function NameOf(w: World, s: Hub.Sid): Str
    requires Named(w, s)
  {
    w.hub.actors[s].key.value.name
  }

  /** The frame a session is in the middle of writing. */
  function Writing(pc: Pc): Option<Torn> {
    match pc
    case Refusing(frame) => Some(Torn(frame, false, 0))
    case Greeting(frame) => Some(Torn(frame, false, 0))
    case Replying(frame, mail, _) => Some(Torn(frame, mail, 0))
    case _ => None
  }

  /** The session is writing the goodbye of a shutdown: of all its writes the only one with a time
      limit, which runs from the turn that saw the shutdown. */
  predicate Goodbye(l: Local) { l.pc.Replying? && l.trace != [] && l.trace[|l.trace| - 1].arm.OnShutdown? }

  predicate GoodbyeIsOver(w: World, l: Local)
    requires Goodbye(l)
  {
    w.clock >= l.trace[|l.trace| - 1].at + w.cfg.goodbyeTimeout
  }

  function NextInbound(l: Local): Option<Inbound> {
    if l.nread < |l.arrived| then Some(l.arrived[l.nread]) else None
  }

  /** What `recv` would give: a queued frame, the end of the stream when no entry of the map still
      holds a sender, or nothing yet. */
  function NextMail(w: World, s: Hub.Sid): Option<Option<ServerFrame>>
    requires Named(w, s)
  {
    var m := w.hub.actors[s].mail;
    if m.taken < |m.enq| then Some(Some(m.enq[m.taken].frame))
    else if Hub.HolderOf(w.hub, NameOf(w, s)) != Some(s) then Some(None)
    else None
  }

  function Chosen(w: World, s: Hub.Sid, tick: bool): Option<Arm>
    requires Named(w, s)
  {
    Select(Ready(w.cancelled, NextInbound(w.locals[s]), NextMail(w, s), tick))
  }

  function Reacts(w: World, s: Hub.Sid, arm: Arm): Reaction
    requires Named(w, s)
  {
    var l := w.locals[s];
    React(w.cfg, NameOf(w, s), VarsAfter(w.cfg, NameOf(w, s), l.start, l.trace), w.clock, arm).1
  }

  /** Which of the arrived frames was read last. */
  function Cause(l: Local): nat { if l.nread > 0 then l.nread - 1 else 0 }

  predicate AllEnded(w: World) { forall s :: 0 <= s < |w.locals| ==> w.locals[s].pc.Ended? }

  predicate Open(l: Local) { forall i :: 0 <= i < |l.arrived| ==> l.arrived[i].Frame? }

  /** Whether the session's program is at the step. */
  predicate LocallyEnabled(w: World, ev: Event) {
    match ev
    case Advance(to) => to >= w.clock
    case Cancel => !w.cancelled
    case AcceptReady => w.server.Listening? && !w.cancelled
    case AcceptError => w.server.Listening? && !w.cancelled
    case Spawn => w.server.Spawning?
    case StopListening => w.server.Listening? && w.cancelled
    case Return => w.server.Draining? && AllEnded(w)
    case Arrive(s, payload) => At(w, s) && |payload| <= MAX_FRAME_BYTES && Open(w.locals[s])
    case Hangup(s) => At(w, s) && Open(w.locals[s])
    case HelloShutdown(s) => At(w, s) && w.locals[s].pc.AwaitHello? && w.cancelled
    case HelloTimeout(s) =>
      && At(w, s) && w.locals[s].pc.AwaitHello? && !w.cancelled
      && NextInbound(w.locals[s]).None? && w.clock >= w.locals[s].born + w.cfg.helloTimeout
    case HelloRead(s) => At(w, s) && w.locals[s].pc.AwaitHello? && !w.cancelled && NextInbound(w.locals[s]).Some?
    case Register(s) => Named(w, s) && w.locals[s].pc.Registering?
    case CountUp(s) => At(w, s) && w.locals[s].pc.Counting?
    case Greet(s) => Named(w, s) && w.locals[s].pc.Reading? && Fits(WelcomeFrame(NameOf(w, s), w.hub.occupancy))
    case WriteDone(s) => At(w, s) && Writing(w.locals[s].pc).Some?
    case WriteFail(s, bytes) =>
      && At(w, s) && Writing(w.locals[s].pc).Some?
      && bytes < 4 + |ServerPayload(Writing(w.locals[s].pc).value.frame)|
    case CutOff(s, bytes) =>
      && At(w, s) && Goodbye(w.locals[s]) && GoodbyeIsOver(w, w.locals[s])
      && bytes < 4 + |ServerPayload(w.locals[s].pc.frame)|
    case BeginJoined(s) =>
      Named(w, s) && w.locals[s].pc.Announcing? && w.hub.actors[s].stage.Silent? && Fits(Joined(NameOf(w, s)))
    case BeginDeparted(s) =>
      Named(w, s) && w.locals[s].pc.Leaving? && w.hub.actors[s].stage.Open? && Fits(Departed(NameOf(w, s)))
    case Visit(s, _) => At(w, s) && (w.locals[s].pc.Announcing? || w.locals[s].pc.Relaying? || w.locals[s].pc.Leaving?)
    case EndCast(s) => At(w, s) && (w.locals[s].pc.Announcing? || w.locals[s].pc.Relaying? || w.locals[s].pc.Leaving?)
    case Poll(s, tick) => Named(w, s) && w.locals[s].pc.Selecting? && Chosen(w, s, tick).Some?
    case Handle(s) =>
      && Named(w, s) && w.locals[s].pc.Handling?
      && var r := Reacts(w, s, w.locals[s].pc.arm);
         (r.Write? || r.Broadcast? ==> Fits(r.frame))
    case Release(s) => Named(w, s) && w.locals[s].pc.Releasing?
    case CountDown(s) => At(w, s) && w.locals[s].pc.Uncounting?
    case Drop(s) => At(w, s) && w.locals[s].pc.Dropping?
  }

  /** What the step does to the hub. */
  function HubEvent(w: World, ev: Event): Option<Hub.Event>
    requires LocallyEnabled(w, ev)
  {
    match ev
    case Spawn => Some(Hub.Spawn)
    case HelloRead(s) =>
      var first := w.locals[s].arrived[w.locals[s].nread];
      if first.Frame? && Judge(first.frame).Accept? then Some(Hub.MakeKey(s, Judge(first.frame).name)) else None
    case Register(s) => Some(Hub.Insert(s))
    case CountUp(s) => Some(Hub.Add(s))
    case WriteFail(s, _) => if w.locals[s].pc.Greeting? then Some(Hub.GiveUp(s)) else None
    case BeginJoined(s) => Some(Hub.Publish(s, Joined(NameOf(w, s)), 0, w.clock))
    case BeginDeparted(s) => Some(Hub.Publish(s, Departed(NameOf(w, s)), 0, w.clock))
    case Visit(s, i) => Some(Hub.Visit(s, i))
    case EndCast(s) => Some(Hub.EndCast(s))
    case Poll(s, tick) =>
      var arm := Chosen(w, s, tick).value;
      if arm.OnMail? && arm.frame.Some? then Some(Hub.Take(s)) else None
    case Handle(s) =>
      var r := Reacts(w, s, w.locals[s].pc.arm);
      if r.Broadcast? then Some(Hub.Publish(s, r.frame, Cause(w.locals[s]), w.clock)) else None
    case Release(s) => Some(Hub.Remove(s))
    case CountDown(s) => Some(Hub.Sub(s))
    case Drop(s) => Some(Hub.Close(s))
    case _ => None
  }

  predicate Enabled(w: World, ev: Event) {
    && LocallyEnabled(w, ev)
    && (HubEvent(w, ev).Some? ==> Hub.Enabled(w.hub, HubEvent(w, ev).value))
  }

  predicate IsSession(ev: Event) {
    && !ev.Advance? && !ev.Cancel? && !ev.AcceptReady? && !ev.Spawn? && !ev.AcceptError?
    && !ev.StopListening? && !ev.Return?
  }

  /** What a payload becomes in the reader. */
  function Inward(payload: Bytes): Inbound {
    match ParseClient(payload)
    case Ok(frame) => Frame(frame)
    case Err(_) => Garbage
  }

  function AfterHello(l: Local): Local
    requires l.nread < |l.arrived|
  {
    var first := l.arrived[l.nread];
    var l := l.(nread := l.nread + 1);
    if !first.Frame? then l.(pc := Ended)
    else
      match Judge(first.frame)
      case Refuse(frame) => l.(pc := Refusing(frame))
      case Accept(_) => l.(pc := Registering)
  }

  function AfterWrite(l: Local): Local
    requires Writing(l.pc).Some?
  {
    var t := Writing(l.pc).value;
    l.(wire := l.wire + [Sent(t.frame, t.mail)],
       pc := if l.pc.Refusing? then Ended else if l.pc.Greeting? then Announcing
             else if l.pc.last then Leaving else Selecting)
  }

  function AfterFailure(l: Local, bytes: nat): Local
    requires Writing(l.pc).Some?
  {
    l.(torn := Some(Writing(l.pc).value.(bytes := bytes)),
       pc := if l.pc.Refusing? then Ended else if l.pc.Greeting? then Releasing else Leaving)
  }

  function AfterPoll(l: Local, arm: Arm): Local {
    l.(pc := Handling(arm), nread := if arm.OnRead? then l.nread + 1 else l.nread)
  }

  function AfterHandling(l: Local, now: real, r: Reaction): Local
    requires l.pc.Handling?
  {
    var arm := l.pc.arm;
    l.(trace := l.trace + [Beat(now, arm)],
       pc := match r
             case Write(frame, last) => Replying(frame, arm.OnMail?, last)
             case Broadcast(_) => Relaying
             case Continue => Selecting
             case Stop => Leaving)
  }

  function AfterCast(l: Local, now: real): Local {
    if l.pc.Announcing? then l.(pc := Selecting, start := now)
    else if l.pc.Relaying? then l.(pc := Selecting)
    else l.(pc := Releasing)
  }

  /** What the step does to the session. */
  function Moved(w: World, ev: Event): Local
    requires Enabled(w, ev) && IsSession(ev)
  {
    var l := w.locals[ev.s];
    match ev
    case Arrive(_, payload) => l.(arrived := l.arrived + [Inward(payload)])
    case Hangup(_) => l.(arrived := l.arrived + [Eof])
    case HelloShutdown(_) => l.(pc := Ended)
    case HelloTimeout(_) => l.(pc := Ended)
    case HelloRead(_) => AfterHello(l)
    case Register(s) =>
      var name := NameOf(w, s);
      l.(pc := if name in w.hub.registry then Refusing(Rejected(AlreadyTaken(name))) else Counting)
    case CountUp(_) => l.(pc := Reading)
    case Greet(s) => l.(pc := Greeting(WelcomeFrame(NameOf(w, s), w.hub.occupancy)))
    case WriteDone(_) => AfterWrite(l)
    case WriteFail(_, bytes) => AfterFailure(l, bytes)
    case CutOff(_, bytes) => AfterFailure(l, bytes)
    case BeginJoined(_) => l
    case BeginDeparted(_) => l
    case Visit(_, _) => l
    case EndCast(_) => AfterCast(l, w.clock)
    case Poll(s, tick) => AfterPoll(l, Chosen(w, s, tick).value)
    case Handle(s) => AfterHandling(l, w.clock, Reacts(w, s, l.pc.arm))
    case Release(s) => l.(pc := if NameOf(w, s) in w.hub.registry then Uncounting else Dropping)
    case CountDown(_) => l.(pc := Dropping)
    case Drop(_) => l.(pc := Ended)
  }

  function Next(w: World, ev: Event): World
    requires Enabled(w, ev)
  {
    var e := HubEvent(w, ev);
    var w' := if e.Some? then w.(hub := Hub.Next(w.hub, e.value)) else w;
    match ev
    case Advance(to) => w'.(clock := to)
    case Cancel => w'.(cancelled := true)
    case AcceptReady => w'.(server := Spawning)
    case Spawn => w'.(locals := w.locals + [Connect(w.clock)], server := Listening)
    case AcceptError => w'.(server := Draining(true))
    case StopListening => w'.(server := Draining(false))
    case Return => w'.(server := Returned(w.server.failed))
    case _ => w'.(locals := w.locals[ev.s := Moved(w, ev)])
  }

  // ----- runs -----

  predicate ValidRun(w: World, evs: seq<Event>)
    decreases |evs|, 0
  {
    evs == [] || (ValidRun(w, evs[..|evs| - 1]) && Enabled(Run(w, evs[..|evs| - 1]), evs[|evs| - 1]))
  }

  function Run(w: World, evs: seq<Event>): World
    requires ValidRun(w, evs)
    decreases |evs|, 1
  {
    if evs == [] then w else Next(Run(w, evs[..|evs| - 1]), evs[|evs| - 1])
  }
}
