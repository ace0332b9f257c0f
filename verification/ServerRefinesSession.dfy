/** Every session of the server, in every interleaving, lives one of the lives of SessionRuns. */
module ServerRefinesSession {
  import opened Wrappers
  import opened Utf8
  import opened Frames
  import opened Codec
  import opened SessionLoop
  import opened SessionTrace
  import opened SessionRuns
  import opened ServerMachine
  import opened ServerSessions
  import opened ServerSafety
  import opened ServerMessages
  import opened ServerTheorems
  import opened ServerLives
  import opened HubTalk
  import Hub = HubMachine
  import HubRegistry
  import HubBroadcasts
  import HubSafety

  // ----- wakes that make a session take these turns -----

  function ReadyFor(arm: Arm): Ready {
    match arm
    case OnShutdown => Ready(true, None, None, false)
    case OnRead(inbound) => Ready(false, Some(inbound), None, false)
    case OnMail(frame) => Ready(false, None, Some(frame), false)
    case OnTick => Ready(false, None, None, true)
  }

  lemma ReadyForArm(arm: Arm)
    ensures Select(ReadyFor(arm)) == Some(arm)
  {
  }

  /** All writes complete, but for one in the last turn, whose fate is given. */
  function WakesOf(trace: seq<Beat>, fate: Fate): seq<Wake> {
    if trace == [] then []
    else
      var last := trace[|trace| - 1];
      WakesOf(Front(trace), Completes) + [Wake(last.at, ReadyFor(last.arm), fate)]
  }

  lemma {:induction false} WakesWellFed(trace: seq<Beat>, fate: Fate)
    requires TraceFits(trace)
    ensures WellFed(WakesOf(trace, fate))
    decreases |trace|
  {
    hide ArmFits;
    if trace != [] {
      WakesWellFed(Front(trace), Completes);
      ReadyForArm(trace[|trace| - 1].arm);
      hide Select, ReadyFor;
    }
  }

  lemma LastWake(cfg: Config, me: Str, start: real, trace: seq<Beat>, fate: Fate)
    requires trace != []
    requires Turns(cfg, me, start, WakesOf(Front(trace), Completes)).exit.Running?
    requires Turns(cfg, me, start, WakesOf(Front(trace), Completes)).trace == Front(trace)
    ensures var o := Turns(cfg, me, start, WakesOf(Front(trace), Completes));
            var k := Turns(cfg, me, start, WakesOf(trace, fate));
            var e := EffectOf(trace[|trace| - 1].arm, LastReaction(cfg, me, start, trace), fate);
            && k.trace == trace && k.exit == e.exit && k.wire == o.wire + e.wire
  {
    hide Turns, LastReaction, EffectOf, Select, ReadyFor;
    var wakes, last := WakesOf(trace, fate), trace[|trace| - 1];
    assert wakes[..|wakes| - 1] == WakesOf(Front(trace), Completes);
    ReadyForArm(last.arm);
    assert Front(trace) + [Beat(last.at, last.arm)] == trace;
    LastTurn(cfg, me, start, wakes);
  }

  lemma GoesOn(arm: Arm, r: Reaction)
    requires !Final(r) && ((r.Write? || r.Broadcast?) ==> Fits(r.frame))
    ensures EffectOf(arm, r, Completes).exit.Running?
  {
  }

  /** While its turns let it live, the loop that meets these wakes takes exactly these turns. */
  lemma {:induction false} Retraces(cfg: Config, me: Str, start: real, trace: seq<Beat>)
    requires ValidName(me) && TraceFits(trace) && Alive(cfg, me, start, trace)
    ensures var o := Turns(cfg, me, start, WakesOf(trace, Completes)); o.exit.Running? && o.trace == trace
    decreases |trace|
  {
    hide Turns, LastReaction, EffectOf, ArmFits, ValidateUsername, Fits;
    if trace == [] {
      BeforeTheFirst(cfg, me, start, []);
    } else {
      Retraces(cfg, me, start, Front(trace));
      LastWake(cfg, me, start, trace, Completes);
      FedTurn(cfg, me, start, trace);
      var r := LastReaction(cfg, me, start, trace);
      if r.Broadcast? { PostFits(me, r.frame); }
      GoesOn(trace[|trace| - 1].arm, r);
    }
  }

  /** The same for turns of which the last may end the loop. */
  lemma RetracesAll(cfg: Config, me: Str, start: real, trace: seq<Beat>, fate: Fate)
    requires ValidName(me) && TraceFits(trace) && trace != [] && Alive(cfg, me, start, Front(trace))
    ensures var front, k := Writes(cfg, me, start, Front(trace)), Turns(cfg, me, start, WakesOf(trace, fate));
            var e := EffectOf(trace[|trace| - 1].arm, LastReaction(cfg, me, start, trace), fate);
            && k.trace == trace && k.exit == e.exit
            && AllFit(ServerPayload, front) && k.wire == EncodeAll(ServerPayload, front) + e.wire
  {
    hide Turns, LastReaction, EffectOf, ArmFits, ValidateUsername, Alive, WellFed;
    Retraces(cfg, me, start, Front(trace));
    LastWake(cfg, me, start, trace, fate);
    WakesWellFed(Front(trace), Completes);
    RunningWire(cfg, me, start, WakesOf(Front(trace), Completes));
  }

  // ----- what a session has said -----

  /** Every frame `s` has broadcast. */
  function SaidBy(pubs: seq<Hub.Pub>, s: Hub.Sid): seq<ServerFrame> {
    if pubs == [] then []
    else
      var said, last := SaidBy(pubs[..|pubs| - 1], s), pubs[|pubs| - 1];
      if last.sid == s then said + [last.frame] else said
  }

  function FramesIn(us: seq<Utterance>): seq<ServerFrame> {
    seq(|us|, i requires 0 <= i < |us| => us[i].frame)
  }

  lemma {:induction false} TalkShape(pubs: seq<Hub.Pub>, s: Hub.Sid, me: Str)
    requires forall p :: 0 <= p < |pubs| && pubs[p].sid == s ==> Hub.About(pubs[p].frame) == Some(me)
    ensures var said, messages := SaidBy(pubs, s), FramesIn(MessagesBy(pubs, s));
            match SessionTalk(pubs, s)
            case Quiet => said == []
            case Live => said == [Joined(me)] + messages
            case Over => said == [Joined(me)] + messages + [Departed(me)]
            case Broken => true
    ensures SessionTalk(pubs, s).Quiet? ==> MessagesBy(pubs, s) == []
    decreases |pubs|
  {
    if pubs != [] { TalkShape(pubs[..|pubs| - 1], s, me); }
  }

  lemma {:induction false} UtteredPosts(cfg: Config, me: Str, start: real, trace: seq<Beat>)
    ensures FramesIn(UtteredIn(cfg, me, start, trace)) == Posts(cfg, me, start, trace)
    decreases |trace|
  {
    hide LastReaction;
    if trace != [] { UtteredPosts(cfg, me, start, trace[..|trace| - 1]); }
  }

  // ----- the lives -----

  /** At its select or with nothing half done in its loop, or at its end. */
  predicate AtRest(pc: Pc) { pc.Selecting? || pc.Handling? || pc.Relaying? || pc.Ended? }

  /** The session, which has broadcast `said` and has `k` bytes of a pending write out, is living the
      life of an object that meets `o` and then `wakes`: the bytes on the wire are the object's, the
      turns are its turns, and what was said is what the object says, so far; all of it, and the loop
      running or not alike, when the session is at rest. */
  ghost predicate LivedAs(cfg: Config, l: Local, k: nat, said: seq<ServerFrame>, o: Opening, wakes: seq<Wake>)
    requires WireFits(l) && (Unfinished(l, k).Some? ==> TornOk(Unfinished(l, k).value))
  {
    var e := Life(cfg, o, l.start, wakes);
    && WellFed(wakes) && o.first == FirstRead(l)
    && (l.pc.Ended? && FirstFrame(l).None? ==> Answer(o).None?)
    && e.wire == WireBytes(l, k)
    && Encoded(said) <= e.broadcasts
    && (AtRest(l.pc) ==> Encoded(said) == e.broadcasts && (e.exit.Running? <==> !l.pc.Ended?))
    && l.trace == (match LetIn(o) case None => [] case Some(me) => Turns(cfg, me, l.start, wakes).trace)
  }

  /** Why the object of a session that has read nothing may end: it was shut down, or it waited too
      long. */
  predicate Waited(w: World, l: Local, o: Opening) {
    && (o.cancelled ==> w.cancelled)
    && (l.pc.Ended? && o.first.None? && !o.cancelled ==> w.clock >= l.born + w.cfg.helloTimeout)
  }

  /** Nothing has been sent: nothing has been read, or what was read is not a frame, or its answer
      has not got out yet. */
  lemma SilentLife(cfg: Config, l: Local, k: nat, cancelled: bool)
    requires WireFits(l) && FirstFrame(l).None? && l.trace == []
    requires l.pc.Ended? || !AtRest(l.pc)
    requires l.pc.Ended? && FirstRead(l).Some? ==> !FirstRead(l).value.Frame?
    ensures Unfinished(l, k).None?
    ensures LivedAs(cfg, l, k, [], Opening(cancelled, FirstRead(l), false, 0, Breaks(0)), [])
  {
    hide EncodeAll, AllFit, Judge, WireOf, WelcomeFrame, AlreadyTaken;
    NoFrames();
    assert Whole(l.wire) == [];
    NothingReaches(Opening(cancelled, FirstRead(l), false, 0, Breaks(0)));
  }

  lemma NothingReaches(o: Opening)
    requires o.fate == Breaks(0)
    ensures AnswerBytes(o) == [] && LetIn(o).None?
  {
    hide WireOf, Judge, Answer;
  }

  /** An answer that never reached the client whole, or that was not Welcome. */
  lemma RefusedLife(cfg: Config, l: Local, k: nat, o: Opening)
    requires WireFits(l) && (Unfinished(l, k).Some? ==> TornOk(Unfinished(l, k).value))
    requires FirstFrame(l).Some? && !Greeted(l) && l.trace == [] && (l.pc.Ended? || !AtRest(l.pc))
    requires l.wire != [] ==> |l.wire| == 1 && Unfinished(l, k).None?
    requires o.first == FirstRead(l) && Answer(o) == FirstFrame(l) && !o.cancelled
    requires o.fate
          == if l.wire == [] && Unfinished(l, k).Some? then Breaks(Unfinished(l, k).value.bytes) else Completes
    ensures LivedAs(cfg, l, k, [], o, [])
  {
    hide AllFit, Judge, ServerPayload, Framed, WireBytes, Fits, WireOf;
    if l.wire == [] {
      CutWire(l, k);
    } else {
      WireSplits(l, k);
      NoFrames();
      assert Whole(l.wire)[1..] == [];
    }
  }

  lemma CutWire(l: Local, k: nat)
    requires WireFits(l) && l.wire == [] && Unfinished(l, k).Some? && TornOk(Unfinished(l, k).value)
    ensures WireBytes(l, k) == Reached(WireOf(Unfinished(l, k).value.frame), Breaks(Unfinished(l, k).value.bytes))
  {
    hide ServerPayload, Framed, AllFit, EncodeAll;
    NoFrames();
    FramedSize(Unfinished(l, k).value.frame);
    assert Whole(l.wire) == [];
  }

  lemma WireSplits(l: Local, k: nat)
    requires WireFits(l) && l.wire != [] && (Unfinished(l, k).Some? ==> TornOk(Unfinished(l, k).value))
    ensures var f, tail := l.wire[0].frame, Whole(l.wire)[1..];
            && Fits(f) && AllFit(ServerPayload, tail)
            && WireBytes(l, k)
               == WireOf(f) + EncodeAll(ServerPayload, tail)
                  + (match Unfinished(l, k)
                     case Some(u) => Reached(WireOf(u.frame), Breaks(u.bytes))
                     case None => [])
  {
    hide ServerPayload, Framed;
    assert Whole(l.wire)[0] == l.wire[0].frame;
    assert |ServerPayload(Whole(l.wire)[0])| <= MAX_FRAME_BYTES;
    if Unfinished(l, k).Some? { FramedSize(Unfinished(l, k).value.frame); }
  }

  lemma FramedSize(f: ServerFrame)
    requires Fits(f)
    ensures |Framed(ServerPayload(f))| == 4 + |ServerPayload(f)| && WireOf(f) == Framed(ServerPayload(f))
  {
  }

  /** The frames of the loop, one turn at a time. */
  lemma LoopSplits(cfg: Config, me: Str, l: Local, k: nat)
    requires LoopOk(cfg, me, l) && Greeted(l)
    ensures var tail := Whole(l.wire)[1..];
            if l.trace == [] then Unfinished(l, k).None? && !LoopLeft(l.pc) && tail == []
            else
              var front, r := Writes(cfg, me, l.start, Front(l.trace)), LastReaction(cfg, me, l.start, l.trace);
              match Unfinished(l, k)
              case Some(u) => r.Write? && r.frame == u.frame && tail == front
              case None => tail == (if r.Write? then front + [r.frame] else front) && (LoopLeft(l.pc) ==> Final(r))
    ensures TraceFits(l.trace) && (l.trace != [] ==> Alive(cfg, me, l.start, Front(l.trace)))
  {
    hide LastReaction, Alive, ArmFits;
    hide TraceFits;
    if l.trace != [] {
      var tail, u := Whole(l.wire)[1..], Unfinished(l, 0);
      assert Writes(cfg, me, l.start, l.trace) == LoopFrames(l);
      if u.Some? {
        var front, r := Writes(cfg, me, l.start, Front(l.trace)), LastReaction(cfg, me, l.start, l.trace);
        assert front + [r.frame] == tail + [u.value.frame];
        assert (front + [r.frame])[..|front|] == front && (tail + [u.value.frame])[..|tail|] == tail;
      }
    }
  }

  lemma LastEffect(arm: Arm, r: Reaction, bytes: nat)
    requires (r.Write? || r.Broadcast?) ==> Fits(r.frame)
    ensures EffectOf(arm, r, Completes).wire == if r.Write? then WireOf(r.frame) else []
    ensures EffectOf(arm, r, Completes).exit.Running? <==> !Final(r)
    ensures r.Write? ==>
      && EffectOf(arm, r, Breaks(bytes)).wire == Reached(WireOf(r.frame), Breaks(bytes))
      && !EffectOf(arm, r, Breaks(bytes)).exit.Running?
  {
  }

  /** The wakes of a greeted session make the object write what the session has written, and end
      when the session's loop has ended. */
  lemma LoopWire(cfg: Config, me: Str, l: Local, k: nat, fate: Fate)
    requires ValidName(me) && LoopOk(cfg, me, l) && Greeted(l) && WireFits(l)
    requires Unfinished(l, k).Some? ==> TornOk(Unfinished(l, k).value)
    requires fate == if Unfinished(l, k).Some? then Breaks(Unfinished(l, k).value.bytes) else Completes
    ensures var t := Turns(cfg, me, l.start, WakesOf(l.trace, fate));
            && t.trace == l.trace && WireBytes(l, k) == WireOf(l.wire[0].frame) + t.wire
            && (LoopLeft(l.pc) || Unfinished(l, k).Some? ==> !t.exit.Running?)
            && (Unfinished(l, k).None? && Alive(cfg, me, l.start, l.trace) ==> t.exit.Running?)
  {
    hide Turns, LastReaction, EffectOf, ValidateUsername, EncodeAll, AllFit, WireOf, Reached, WireBytes, Writes,
      Fits, LoopOk, TornOk, Unfinished, LoopLeft, Whole, ArmFits;
    WireSplits(l, k);
    LoopSplits(cfg, me, l, k);
    if l.trace == [] {
      BeforeTheFirst(cfg, me, l.start, []);
      NoFrames();
    } else {
      var r := LastReaction(cfg, me, l.start, l.trace);
      RetracesAll(cfg, me, l.start, l.trace, fate);
      FedTurn(cfg, me, l.start, l.trace);
      if r.Broadcast? { PostFits(me, r.frame); }
      LastEffect(l.trace[|l.trace| - 1].arm, r, if fate.Breaks? then fate.after else 0);
      if Unfinished(l, k).None? && r.Write? { EncodeAllPush(Writes(cfg, me, l.start, Front(l.trace)), r.frame); }
    }
  }

  lemma EncodedConcat(a: seq<ServerFrame>, b: seq<ServerFrame>)
    ensures Encoded(a + b) == Encoded(a) + Encoded(b)
  {
    hide WireOf;
    forall i | 0 <= i < |a + b| ensures Encoded(a + b)[i] == (Encoded(a) + Encoded(b))[i] {
      assert (a + b)[i] == if i < |a| then a[i] else b[i - |a|];
    }
  }

  lemma EncodedOne(f: ServerFrame)
    ensures Encoded([f]) == [WireOf(f)]
  {
  }

  /** What a session whose talk is `t` has said, its messages being `posts`. */
  function Speech(t: Talk, me: Str, posts: seq<ServerFrame>): seq<ServerFrame> {
    match t
    case Live => [Joined(me)] + posts
    case Over => [Joined(me)] + posts + [Departed(me)]
    case _ => []
  }

  lemma SpeechBytes(t: Talk, me: Str, posts: seq<ServerFrame>)
    ensures Encoded(Speech(t, me, posts))
         == match t
            case Live => [WireOf(Joined(me))] + Encoded(posts)
            case Over => [WireOf(Joined(me))] + Encoded(posts) + [WireOf(Departed(me))]
            case _ => []
  {
    hide Encoded, WireOf;
    EncodedConcat([Joined(me)], posts);
    EncodedConcat([Joined(me)] + posts, [Departed(me)]);
    EncodedOne(Joined(me));
    EncodedOne(Departed(me));
    if t.Quiet? || t.Broken? { NothingEncoded(); }
  }

  lemma NothingEncoded()
    ensures Encoded([]) == []
  {
  }

  /** A session that has been greeted. */
  lemma GreetedLife(cfg: Config, l: Local, k: nat, me: Str, t: Talk, o: Opening, fate: Fate)
    requires ValidName(me) && LoopOk(cfg, me, l) && Greeted(l) && WireFits(l)
    requires Unfinished(l, k).Some? ==> TornOk(Unfinished(l, k).value)
    requires fate == if Unfinished(l, k).Some? then Breaks(Unfinished(l, k).value.bytes) else Completes
    requires !o.cancelled && o.fate.Completes? && Answer(o) == Some(l.wire[0].frame)
    requires FirstRead(l).Some? && o.first == FirstRead(l) && Asks(FirstRead(l).value, me)
    requires t.Over? ==> LoopLeft(l.pc)
    requires AtRest(l.pc) ==>
      if l.pc.Ended? then t.Over?
      else t.Live? && Unfinished(l, k).None? && Alive(cfg, me, l.start, l.trace)
    ensures LivedAs(cfg, l, k, Speech(t, me, Posts(cfg, me, l.start, l.trace)), o, WakesOf(l.trace, fate))
  {
    hide Turns, Alive, LoopOk, EncodeAll, AllFit, WireOf, WireBytes, Posts, Encoded, Fits, TornOk, Unfinished,
      WellFed, Judge, ValidateUsername, Speech, TraceFits, Reached, Whole, Answer;
    var posts := Posts(cfg, me, l.start, l.trace);
    LoopWire(cfg, me, l, k, fate);
    LoopSplits(cfg, me, l, k);
    WireSplits(l, k);
    WakesWellFed(l.trace, fate);
    NameFramesFit(me, 0);
    BroadcastsArePosts(cfg, me, l.start, WakesOf(l.trace, fate));
    SpeechBytes(t, me, posts);
    WholeAnswer(l.wire[0].frame);
    LetInNow(l, o, me);
  }

  lemma WholeAnswer(f: ServerFrame)
    ensures Reached(WireOf(f), Completes) == WireOf(f)
  {
  }

  lemma LetInNow(l: Local, o: Opening, me: Str)
    requires l.wire != [] && l.wire[0].frame.Welcome? && Fits(l.wire[0].frame) && o.fate.Completes?
    requires Answer(o) == Some(l.wire[0].frame) && FirstRead(l).Some? && o.first == FirstRead(l)
    requires Asks(FirstRead(l).value, me)
    ensures LetIn(o) == Some(me)
  {
    hide Fits, Judge, Answer;
  }

  // ----- every reachable session -----

  lemma ReachableLives(cfg: Config, w: World)
    requires Reachable(cfg, w)
    ensures LivesOk(w)
  {
    var now, evs :| ValidRun(Init(cfg, now), evs) && Run(Init(cfg, now), evs) == w;
    LivesSafety(cfg, now, evs);
  }

  /** A session that has ended without reading anything was shut down, or had waited too long. */
  predicate Reasoned(w: World, l: Local) {
    (l.nread > 0 ==> l.arrived != [])
    && (l.pc.Ended? && l.nread == 0 ==> w.cancelled || w.clock >= l.born + w.cfg.helloTimeout)
  }

  predicate ReasonsOk(w: World) { forall s :: 0 <= s < |w.locals| ==> Reasoned(w, w.locals[s]) }

  lemma OwnReason(w: World, ev: Event)
    requires Enabled(w, ev) && IsSession(ev) && At(w, ev.s) && Reasoned(w, w.locals[ev.s])
    requires LocalOk(w.locals[ev.s]) && OpeningOk(w.locals[ev.s], w.hub.actors[ev.s].key)
    ensures Reasoned(w, Moved(w, ev))
  {
    hide Enabled, Fits, Judge, HubEvent, ParseClient, Ordinary, ServerPayload, AnswerTo, Reacts, Chosen, FromWire;
    StillLocal(w, ev);
  }

  lemma ReasonStep(w: World, ev: Event)
    requires Inv(w) && LivesOk(w) && ReasonsOk(w) && Enabled(w, ev)
    ensures ReasonsOk(Next(w, ev))
  {
    hide HubSafety.Inv, PubsOrdinary, SessionOk, LifeOk, Enabled, Next, Moved, HubAfter, OpeningOk, LocalOk, Reasoned;
    var k := Next(w, ev);
    if IsSession(ev) {
      NextIs(w, ev);
      SessionReads(w, ev.s);
      OwnReason(w, ev);
      forall r | 0 <= r < |k.locals| ensures Reasoned(k, k.locals[r]) {
        SameReason(w, k, k.locals[r]);
      }
    } else {
      ServerReason(w, ev);
      forall r | 0 <= r < |k.locals| ensures Reasoned(k, k.locals[r]) {
        if r < |w.locals| { SameReason(w, k, w.locals[r]); } else { NewReason(k, w.clock); }
      }
    }
  }

  lemma SessionReads(w: World, s: Hub.Sid)
    requires SessionsOk(w) && LivesOk(w) && At(w, s)
    ensures LocalOk(w.locals[s]) && OpeningOk(w.locals[s], w.hub.actors[s].key)
  {
    hide LocalOk, OpeningOk, LoopOk, LastWord, MailOk, TraceOk, ValidateUsername;
    assert SessionOk(w.cfg, w.locals[s], w.hub.actors[s], w.clock);
    assert LifeOk(w.cfg, w.locals[s], w.hub.actors[s], SessionTalk(w.hub.pubs, s));
  }

  lemma SameReason(w: World, k: World, l: Local)
    requires k.cfg == w.cfg && k.clock >= w.clock && (w.cancelled ==> k.cancelled)
    ensures Reasoned(w, l) ==> Reasoned(k, l)
  {
  }

  lemma NewReason(k: World, born: real)
    ensures Reasoned(k, Connect(born))
  {
  }

  lemma ServerReason(w: World, ev: Event)
    requires Enabled(w, ev) && !IsSession(ev)
    ensures var k := Next(w, ev);
            && k.cfg == w.cfg && k.clock >= w.clock && (w.cancelled ==> k.cancelled)
            && k.locals == if ev.Spawn? then w.locals + [Connect(w.clock)] else w.locals
  {
  }

  lemma {:induction false} ReasonsSafety(cfg: Config, now: real, evs: seq<Event>)
    requires ValidRun(Init(cfg, now), evs)
    ensures ReasonsOk(Run(Init(cfg, now), evs))
    decreases |evs|
  {
    hide Enabled, Next, Inv, LivesOk, Reasoned;
    if evs != [] {
      var front := evs[..|evs| - 1];
      ReasonsSafety(cfg, now, front);
      Safety(cfg, now, front);
      LivesSafety(cfg, now, front);
      ReasonStep(Run(Init(cfg, now), front), evs[|evs| - 1]);
    }
  }

  lemma ReachableReasons(cfg: Config, w: World)
    requires Reachable(cfg, w)
    ensures ReasonsOk(w)
  {
    hide ReasonsOk, Enabled, Next;
    var now, evs :| ValidRun(Init(cfg, now), evs) && Run(Init(cfg, now), evs) == w;
    ReasonsSafety(cfg, now, evs);
  }

  lemma HubSays(h: Hub.Hub, s: Hub.Sid)
    requires HubSafety.Inv(h) && Hub.At(h, s)
    ensures TalkFits(h.actors[s].stage, SessionTalk(h.pubs, s))
    ensures h.actors[s].key.None? ==> h.actors[s].stage.Idle?
    ensures forall p :: 0 <= p < |h.pubs| && h.pubs[p].sid == s ==> Hub.About(h.pubs[p].frame) == Some(Me(h.actors[s]))
  {
    assert TalksOk(h) && HubRegistry.RegistryOk(h);
    forall p | 0 <= p < |h.pubs| && h.pubs[p].sid == s ensures Hub.About(h.pubs[p].frame) == Some(Me(h.actors[s])) {
      assert HubBroadcasts.PubOk(h, h.pubs[p]);
    }
  }

  /** What has been proved of the session. */
  lemma SessionFacts(cfg: Config, w: World, s: Hub.Sid)
    requires Reachable(cfg, w) && s < |w.locals|
    ensures At(w, s) && SessionOk(cfg, w.locals[s], w.hub.actors[s], w.clock)
    ensures LifeOk(cfg, w.locals[s], w.hub.actors[s], SessionTalk(w.hub.pubs, s))
    ensures TalkFits(w.hub.actors[s].stage, SessionTalk(w.hub.pubs, s))
    ensures var l, me := w.locals[s], Me(w.hub.actors[s]);
            SaidBy(w.hub.pubs, s) == Speech(SessionTalk(w.hub.pubs, s), me, Posts(cfg, me, l.start, l.trace))
  {
    hide Reachable, HubSafety.Inv, SessionOk, LifeOk, CausesOk, PubsOrdinary, UtteredIn, MessagesBy, SessionTalk;
    ReachableIsSafe(cfg, w);
    ReachableLives(cfg, w);
    assert SessionOk(w.cfg, w.locals[s], w.hub.actors[s], w.clock) && At(w, s);
    assert LifeOk(w.cfg, w.locals[s], w.hub.actors[s], SessionTalk(w.hub.pubs, s));
    assert TurnsMatch(w, s);
    var l, me := w.locals[s], Me(w.hub.actors[s]);
    HubSays(w.hub, s);
    TalkShape(w.hub.pubs, s, me);
    UtteredPosts(cfg, me, l.start, l.trace);
  }

  /** A session to which nothing but Welcome was sent whole has said nothing. */
  lemma UngreetedIsQuiet(cfg: Config, l: Local, a: Hub.Actor, t: Talk, now: real)
    requires SessionOk(cfg, l, a, now) && LifeOk(cfg, l, a, t) && TalkFits(a.stage, t) && !Greeted(l)
    ensures OpeningOk(l, a.key) && t.Quiet? && l.trace == [] && (l.pc.Ended? || !AtRest(l.pc))
    ensures l.wire != [] ==> |l.wire| == 1 && l.torn.None? && Writing(l.pc).None?
  {
    hide LoopFrames, Judge, AnswerTo, TraceOk, MailOk, ReadOk, ValidateUsername, Fits;
  }

  lemma GreetedTalk(cfg: Config, l: Local, a: Hub.Actor, t: Talk, now: real)
    requires SessionOk(cfg, l, a, now) && LifeOk(cfg, l, a, t) && TalkFits(a.stage, t) && Greeted(l)
    ensures a.key.Some? && FirstRead(l).Some? && Asks(FirstRead(l).value, Me(a)) && ValidName(Me(a))
    ensures AnswerTo(FirstRead(l).value, l.wire[0].frame)
    ensures t.Over? ==> LoopLeft(l.pc)
    ensures AtRest(l.pc) ==>
      if l.pc.Ended? then t.Over?
      else t.Live? && l.torn.None? && Writing(l.pc).None? && Alive(cfg, Me(a), l.start, l.trace)
  {
    hide LoopFrames, Judge, MailOk, ReadOk, ValidateUsername, Fits, InOrder, Alive;
  }

  /** Every session is an object of SessionRuns. In every reachable state of the server and at every
      byte of its writes, each session is living the life of an object that met the same first frame
      and took the same turns: it has written the same bytes and broadcast the same frames. */
  lemma EverySessionIsALife(cfg: Config, w: World, s: Hub.Sid, k: nat)
    requires Reachable(cfg, w) && s < |w.locals|
    requires Unfinished(w.locals[s], k).Some? ==> TornOk(Unfinished(w.locals[s], k).value)
    ensures WireFits(w.locals[s])
    ensures exists o, wakes ::
              LivedAs(cfg, w.locals[s], k, SaidBy(w.hub.pubs, s), o, wakes) && Waited(w, w.locals[s], o)
  {
    hide Reachable, SessionOk, LifeOk, LivedAs, Waited, SaidBy, SessionTalk, WireFits, WireOk, TornOk;
    ReachableWire(cfg, w, s);
    WireOkFits(w.locals[s]);
    SessionFacts(cfg, w, s);
    var l, a, t := w.locals[s], w.hub.actors[s], SessionTalk(w.hub.pubs, s);
    if Greeted(l) {
      GreetedTalk(cfg, l, a, t, w.clock);
      GreetedIsALife(cfg, w, l, a, t, k);
    } else {
      UngreetedIsQuiet(cfg, l, a, t, w.clock);
      ReachableReasons(cfg, w);
      UngreetedIsALife(cfg, w, l, a, t, k);
    }
  }

  lemma GreetedIsALife(cfg: Config, w: World, l: Local, a: Hub.Actor, t: Talk, k: nat)
    requires WireFits(l) && (Unfinished(l, k).Some? ==> TornOk(Unfinished(l, k).value))
    requires SessionOk(cfg, l, a, w.clock) && LifeOk(cfg, l, a, t) && TalkFits(a.stage, t) && Greeted(l)
    ensures exists o, wakes :: LivedAs(cfg, l, k, Speech(t, Me(a), Posts(cfg, Me(a), l.start, l.trace)), o, wakes)
                            && Waited(w, l, o)
  {
    hide SessionOk, LoopOk, OpeningOk, LivedAs, Judge, WireFits, TornOk, Fits, ValidateUsername, Alive, Answer, Speech;
    GreetedTalk(cfg, l, a, t, w.clock);
    var taken: bool, occupancy: int :|
      Answer(Opening(false, Some(FirstRead(l).value), taken, occupancy, Completes)) == Some(l.wire[0].frame);
    var o := Opening(false, FirstRead(l), taken, occupancy, Completes);
    var fate := if Unfinished(l, k).Some? then Breaks(Unfinished(l, k).value.bytes) else Completes;
    GreetedLife(cfg, l, k, Me(a), t, o, fate);
  }

  lemma UngreetedIsALife(cfg: Config, w: World, l: Local, a: Hub.Actor, t: Talk, k: nat)
    requires WireFits(l) && (Unfinished(l, k).Some? ==> TornOk(Unfinished(l, k).value))
    requires OpeningOk(l, a.key) && Reasoned(w, l)
    requires !Greeted(l) && t.Quiet? && l.trace == [] && (l.pc.Ended? || !AtRest(l.pc))
    requires l.wire != [] ==> |l.wire| == 1 && l.torn.None? && Writing(l.pc).None?
    ensures exists o, wakes :: LivedAs(cfg, l, k, Speech(t, Me(a), Posts(cfg, Me(a), l.start, l.trace)), o, wakes)
                            && Waited(w, l, o)
  {
    hide LivedAs, Judge, WireFits, TornOk, Fits, Posts;
    var o: Opening;
    if FirstFrame(l).None? {
      var cancelled := w.cancelled && l.nread == 0;
      o := Opening(cancelled, FirstRead(l), false, 0, Breaks(0));
      SilentLife(cfg, l, k, cancelled);
    } else {
      var taken: bool, occupancy: int :|
        Answer(Opening(false, Some(FirstRead(l).value), taken, occupancy, Completes)) == Some(FirstFrame(l).value);
      var fate := if l.wire == [] && Unfinished(l, k).Some? then Breaks(Unfinished(l, k).value.bytes) else Completes;
      SameAnswer(Opening(false, FirstRead(l), taken, occupancy, Completes), fate);
      o := Opening(false, FirstRead(l), taken, occupancy, fate);
      RefusedLife(cfg, l, k, o);
    }
    assert LivedAs(cfg, l, k, Speech(t, Me(a), Posts(cfg, Me(a), l.start, l.trace)), o, []) && Waited(w, l, o);
  }

  lemma SameAnswer(o: Opening, fate: Fate)
    ensures Answer(o.(fate := fate)) == Answer(o)
  {
  }
}
