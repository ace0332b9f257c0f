/** What holds after every run of the server. */
module ServerTheorems {
  import opened Wrappers
  import opened Utf8
  import opened Frames
  import opened Codec
  import opened TokenBucket
  import opened SessionLoop
  import opened SessionTrace
  import opened ServerMachine
  import opened ServerSessions
  import opened ServerSafety
  import opened ServerMessages
  import Hub = HubMachine
  import HubSafety

  /** The states some run of a server with this configuration leads to. */
  ghost predicate Reachable(cfg: Config, w: World) {
    exists now, evs :: ValidRun(Init(cfg, now), evs) && Run(Init(cfg, now), evs) == w
  }

  lemma ReachableIsSafe(cfg: Config, w: World)
    requires Reachable(cfg, w)
    ensures MessagesOk(w) && w.cfg == cfg
  {
    hide MessagesOk;
    var now, evs :| ValidRun(Init(cfg, now), evs) && Run(Init(cfg, now), evs) == w;
    MessagesSafety(cfg, now, evs);
  }

  // ----- the server's hub is a run of the hub machine -----

  /** The hub steps of a run. */
  function HubTrace(w: World, evs: seq<Event>): seq<Hub.Event>
    requires ValidRun(w, evs)
  {
    if evs == [] then []
    else
      var e := HubEvent(Run(w, evs[..|evs| - 1]), evs[|evs| - 1]);
      HubTrace(w, evs[..|evs| - 1]) + (if e.Some? then [e.value] else [])
  }

  lemma {:induction false} ServerRefinesHub(w: World, evs: seq<Event>)
    requires ValidRun(w, evs)
    ensures Hub.ValidRun(w.hub, HubTrace(w, evs)) && Hub.Run(w.hub, HubTrace(w, evs)) == Run(w, evs).hub
    decreases |evs|
  {
    hide Enabled, Next, Hub.Enabled, Hub.Next;
    if evs != [] {
      var front, last := evs[..|evs| - 1], evs[|evs| - 1];
      ServerRefinesHub(w, front);
      NextHub(Run(w, front), last);
      var t, e := HubTrace(w, front), HubEvent(Run(w, front), last);
      if e.Some? {
        assert (t + [e.value])[..|t|] == t;
      } else {
        assert t + [] == t;
      }
    }
  }

  /** Everything proved of the hub machine holds of the server's hub. */
  lemma ServerHubIsReachable(cfg: Config, w: World)
    requires Reachable(cfg, w)
    ensures HubSafety.Reachable(w.hub)
  {
    var now, evs :| ValidRun(Init(cfg, now), evs) && Run(Init(cfg, now), evs) == w;
    ServerRefinesHub(Init(cfg, now), evs);
  }

  // ----- what a client receives -----

  function Whole(wire: seq<Sent>): seq<ServerFrame> {
    seq(|wire|, i requires 0 <= i < |wire| => wire[i].frame)
  }

  predicate WireFits(l: Local) {
    && AllFit(ServerPayload, Whole(l.wire))
    && (l.torn.Some? ==> TornOk(l.torn.value))
    && (Writing(l.pc).Some? ==> Fits(Writing(l.pc).value.frame))
  }

  /** The frame being written, or the one that was cut off, if any, and `k` or its count of bytes. */
  function Unfinished(l: Local, k: nat): Option<Torn> {
    if Writing(l.pc).Some? then Some(Writing(l.pc).value.(bytes := k)) else l.torn
  }

  /** Every byte written to the client so far, when `k` bytes of a write in progress are out. */
  function WireBytes(l: Local, k: nat): Bytes
    requires WireFits(l)
    requires Unfinished(l, k).Some? ==> TornOk(Unfinished(l, k).value)
  {
    EncodeAll(ServerPayload, Whole(l.wire))
    + (match Unfinished(l, k)
       case Some(t) => Framed(ServerPayload(t.frame))[..t.bytes]
       case None => [])
  }

  lemma ReachableWire(cfg: Config, w: World, s: Hub.Sid)
    requires Reachable(cfg, w) && s < |w.locals|
    ensures WireOk(w.locals[s]) && s < |w.hub.actors| && SessionOk(cfg, w.locals[s], w.hub.actors[s], w.clock)
  {
    ReachableIsSafe(cfg, w);
    hide SessionOk, HubSafety.Inv, CausesOk, TurnsOk, Reachable, PubsOrdinary;
    assert SessionOk(w.cfg, w.locals[s], w.hub.actors[s], w.clock);
    SessionHasWire(w.cfg, w.locals[s], w.hub.actors[s], w.clock);
  }

  lemma SessionHasWire(cfg: Config, l: Local, a: Hub.Actor, now: real)
    requires SessionOk(cfg, l, a, now)
    ensures WireOk(l)
  {
  }

  lemma WireOkFits(l: Local)
    requires WireOk(l)
    ensures WireFits(l)
  {
    hide Fits;
    forall i | 0 <= i < |l.wire| ensures Fits(l.wire[i].frame) {}
    assert forall i :: 0 <= i < |l.wire| ==> Whole(l.wire)[i] == l.wire[i].frame && Fits(l.wire[i].frame);
    AllFits(Whole(l.wire));
  }

  lemma AllFits(frames: seq<ServerFrame>)
    requires forall i :: 0 <= i < |frames| ==> Fits(frames[i])
    ensures AllFit(ServerPayload, frames)
  {
  }

  /** The client's decoder never fails. At every moment, even in the middle of a write, it sees
      exactly the frames written whole, and holds back exactly the bytes of one unfinished frame.
      The first frame is Welcome or Rejected, neither comes later, and nothing follows Rejected. */
  lemma ClientSeesWholeFrames(cfg: Config, w: World, s: Hub.Sid, k: nat)
    requires Reachable(cfg, w) && s < |w.locals|
    requires Unfinished(w.locals[s], k).Some? ==> TornOk(Unfinished(w.locals[s], k).value)
    ensures WireFits(w.locals[s])
    ensures var l := w.locals[s];
            var cut := match Unfinished(l, k)
                       case Some(t) => Framed(ServerPayload(t.frame))[..t.bytes]
                       case None => [];
            && ParseAll(ParseServer, WireBytes(l, k)) == Parsed(Whole(l.wire), Pending(cut))
            && (l.wire != [] ==> l.wire[0].frame.Welcome? || l.wire[0].frame.Rejected?)
            && (forall i :: 0 < i < |l.wire| ==> !l.wire[i].frame.Welcome? && !l.wire[i].frame.Rejected?)
            && (l.wire != [] && l.wire[0].frame.Rejected? ==> |l.wire| == 1 && cut == [])
  {
    var l := w.locals[s];
    ReachableWire(cfg, w, s);
    hide Reachable, SessionOk;
    WireOkFits(l);
    WireIsStream(l, k);
    WireShape(l, k);
    hide WireOk, WireFits, Fits, TornOk, WireBytes;
  }

  lemma WireIsStream(l: Local, k: nat)
    requires WireFits(l) && (Unfinished(l, k).Some? ==> TornOk(Unfinished(l, k).value))
    ensures var cut := match Unfinished(l, k)
                       case Some(t) => Framed(ServerPayload(t.frame))[..t.bytes]
                       case None => [];
            ParseAll(ParseServer, WireBytes(l, k)) == Parsed(Whole(l.wire), Pending(cut))
  {
    ServerInverse();
    hide ParseAll, Inverse, AllFit, EncodeAll;
    match Unfinished(l, k)
    case Some(t) => StreamRoundTrip(ParseServer, ServerPayload, Whole(l.wire), t.frame, t.bytes);
    case None =>
      assert Framed(ServerPayload(Ping))[..0] == [];
      assert |ServerPayload(Ping)| <= MAX_FRAME_BYTES;
      StreamRoundTrip(ParseServer, ServerPayload, Whole(l.wire), Ping, 0);
  }

  lemma WireShape(l: Local, k: nat)
    requires WireOk(l)
    ensures l.wire != [] ==> l.wire[0].frame.Welcome? || l.wire[0].frame.Rejected?
    ensures forall i :: 0 < i < |l.wire| ==> !l.wire[i].frame.Welcome? && !l.wire[i].frame.Rejected?
    ensures l.wire != [] && l.wire[0].frame.Rejected? ==> |l.wire| == 1 && Unfinished(l, k).None?
  {
    hide Fits, TornOk;
  }

  // ----- mailboxes -----

  function StillQueued(m: Hub.Mailbox): seq<ServerFrame>
    requires m.taken <= |m.enq|
  {
    FramesOf(m.enq[m.taken..])
  }

  /** Conservation, to the wire: every frame offered to a session's mailbox was written to the
      client, is in the middle of a write (or was cut off by a failed one), is still waiting (or was
      discarded at exit), or was dropped; the frames written come first, in the order queued; at
      most 256 wait; and a session at its select is never told that its mailbox has ended. */
  lemma MailboxAccounts(cfg: Config, w: World, s: Hub.Sid)
    requires Reachable(cfg, w) && s < |w.locals|
    ensures s < |w.hub.actors|
    ensures var l, m := w.locals[s], w.hub.actors[s].mail;
            && m.taken <= |m.enq|
            && MailPart(l.wire) + InFlight(l) + StillQueued(m) == FramesOf(m.enq)
            && |InFlight(l)| <= 1 && |StillQueued(m)| <= 256
            && m.offered == |MailPart(l.wire)| + |InFlight(l)| + |StillQueued(m)| + m.full + m.closed
    ensures w.locals[s].pc.Selecting? ==> Named(w, s) && NextMail(w, s) != Some(None)
  {
    hide Reachable, WireOk, HubSafety.Reachable, TraceOk, ReadOk, ValidateUsername, FramesOf, MailPart;
    ReachableWire(cfg, w, s);
    ServerHubIsReachable(cfg, w);
    HubSafety.MailboxConservation(w.hub, s);
    var m := w.hub.actors[s].mail;
    FramesSplit(m);
  }

  lemma FramesSplit(m: Hub.Mailbox)
    requires m.taken <= |m.enq|
    ensures FramesOf(m.enq) == FramesOf(m.enq[..m.taken]) + StillQueued(m)
    ensures |FramesOf(m.enq[..m.taken])| == m.taken && |StillQueued(m)| == |m.enq[m.taken..]|
  {
  }

  // ----- messages -----

  /** Provenance: a Message queued for a session comes from a Send with that very body, read by
      another session, which held the name it is signed with when the broadcast began; the body is
      1 to 4096 bytes; and the recipient has no other message from the same Send. */
  lemma MessageProvenance(cfg: Config, w: World, t: Hub.Sid, k: nat)
    requires Reachable(cfg, w) && t < |w.hub.actors| && k < |w.hub.actors[t].mail.enq|
    requires w.hub.actors[t].mail.enq[k].frame.Message?
    ensures var x := w.hub.actors[t].mail.enq[k];
            && x.pub < |w.hub.pubs|
            && var p := w.hub.pubs[x.pub];
               && p.sid != t && p.sid < |w.locals| && Named(w, p.sid)
               && x.frame.from == NameOf(w, p.sid) && p.holder == Some(p.sid)
               && p.cause < w.locals[p.sid].nread <= |w.locals[p.sid].arrived|
               && w.locals[p.sid].arrived[p.cause] == Frame(Send(x.frame.body))
               && 1 <= |x.frame.body| <= MAX_BODY_BYTES
    ensures forall j :: 0 <= j < k && w.hub.actors[t].mail.enq[j].frame.Message? ==>
              var x, y := w.hub.actors[t].mail.enq[j].pub, w.hub.actors[t].mail.enq[k].pub;
              && x < |w.hub.pubs| && y < |w.hub.pubs|
              && (w.hub.pubs[x].sid == w.hub.pubs[y].sid ==> w.hub.pubs[x].cause < w.hub.pubs[y].cause)
  {
    hide *;
    ReachableIsSafe(cfg, w);
    ServerHubIsReachable(cfg, w);
    MessagesHaveCauses(w);
    OneMessage(w, t, k);
    var enq := w.hub.actors[t].mail.enq;
    forall j | 0 <= j < k && enq[j].frame.Message?
      ensures var x, y := enq[j].pub, enq[k].pub;
              && x < |w.hub.pubs| && y < |w.hub.pubs|
              && (w.hub.pubs[x].sid == w.hub.pubs[y].sid ==> w.hub.pubs[x].cause < w.hub.pubs[y].cause)
    {
      TwoMessages(w, t, j, k);
    }
  }

  lemma MessagesHaveCauses(w: World)
    requires MessagesOk(w)
    ensures CausesOk(w)
  {
    hide Inv, CausesOk, TurnsOk;
  }

  lemma OneMessage(w: World, t: Hub.Sid, k: nat)
    requires HubSafety.Reachable(w.hub) && CausesOk(w) && t < |w.hub.actors| && k < |w.hub.actors[t].mail.enq|
    requires w.hub.actors[t].mail.enq[k].frame.Message?
    ensures var x := w.hub.actors[t].mail.enq[k];
            && x.pub < |w.hub.pubs|
            && var p := w.hub.pubs[x.pub];
               && p.sid != t && p.sid < |w.locals| && Named(w, p.sid)
               && x.frame.from == NameOf(w, p.sid) && p.holder == Some(p.sid)
               && p.cause < w.locals[p.sid].nread <= |w.locals[p.sid].arrived|
               && w.locals[p.sid].arrived[p.cause] == Frame(Send(x.frame.body))
               && 1 <= |x.frame.body| <= MAX_BODY_BYTES
  {
    hide HubSafety.Reachable, CausesRise;
    HubSafety.DeliveryIsFaithful(w.hub, t, k);
    assert CauseOk(w, w.hub.pubs[w.hub.actors[t].mail.enq[k].pub]);
  }

  lemma TwoMessages(w: World, t: Hub.Sid, j: nat, k: nat)
    requires HubSafety.Reachable(w.hub) && CausesOk(w) && t < |w.hub.actors| && j < k < |w.hub.actors[t].mail.enq|
    requires w.hub.actors[t].mail.enq[j].frame.Message? && w.hub.actors[t].mail.enq[k].frame.Message?
    ensures var x, y := w.hub.actors[t].mail.enq[j].pub, w.hub.actors[t].mail.enq[k].pub;
            && x < |w.hub.pubs| && y < |w.hub.pubs|
            && (w.hub.pubs[x].sid == w.hub.pubs[y].sid ==> w.hub.pubs[x].cause < w.hub.pubs[y].cause)
  {
    hide HubSafety.Reachable, CauseOk;
    HubSafety.DeliveryIsFaithful(w.hub, t, j);
    HubSafety.DeliveryIsFaithful(w.hub, t, k);
    var x, y := w.hub.actors[t].mail.enq[j].pub, w.hub.actors[t].mail.enq[k].pub;
    if w.hub.pubs[x].sid == w.hub.pubs[y].sid {
      assert SameSender(w.hub.pubs[x], w.hub.pubs[y]);
    }
  }

  // ----- flood -----

  function CountIn(us: seq<Utterance>, a: real, b: real): nat {
    if us == [] then 0
    else CountIn(us[..|us| - 1], a, b) + (if a <= us[|us| - 1].at <= b then 1 else 0)
  }

  lemma {:induction false} CountIsPublished(cfg: Config, me: Str, start: real, trace: seq<Beat>, a: real, b: real)
    ensures CountIn(UtteredIn(cfg, me, start, trace), a, b) == Published(cfg, me, start, trace, a, b)
    decreases |trace|
  {
    hide React, VarsAfter;
    if trace != [] {
      var front := trace[..|trace| - 1];
      CountIsPublished(cfg, me, start, front, a, b);
      var us, r := UtteredIn(cfg, me, start, front), LastReaction(cfg, me, start, trace);
      if r.Broadcast? { assert (us + [Utterance(r.frame, trace[|trace| - 1].at)])[..|us|] == us; }
    }
  }

  /** The flood bound: in any window of time, whatever its client sends, a session broadcasts at
      most burst plus refill rate times the window's length messages to the room. */
  lemma RoomIsNotFlooded(cfg: Config, w: World, s: Hub.Sid, a: real, b: real)
    requires cfg.Valid() && Reachable(cfg, w) && s < |w.locals| && a <= b
    ensures CountIn(MessagesBy(w.hub.pubs, s), a, b) as real <= cfg.burst + (b - a) * cfg.refillPerSec
  {
    ReachableWire(cfg, w, s);
    ReachableIsSafe(cfg, w);
    var l, me := w.locals[s], Me(w.hub.actors[s]);
    assert TurnsMatch(w, s);
    assert TraceOk(cfg, me, l, w.clock);
    hide Reachable, MessagesOk, SessionOk, WireOk, MessagesBy, UtteredIn, Published;
    CountIsPublished(cfg, me, l.start, l.trace, a, b);
    if l.trace == [] {
      InOrderEmpty(l.start);
      FloodBound(cfg, me, l.start, [], l.start, a, b);
    } else {
      FloodBound(cfg, me, l.start, l.trace, w.clock, a, b);
    }
  }

  lemma InOrderEmpty(start: real)
    ensures InOrder(start, [], start)
  {
  }

  // ----- heartbeat -----

  /** In its serve loop, and not on its way out. */
  predicate InLoop(pc: Pc) {
    pc.Selecting? || pc.Handling? || pc.Relaying? || (pc.Replying? && !pc.last)
  }

  /** A silent client is disconnected in time: while its timer's last tick is at most `period` ago,
      a session that has read nothing for longer than the idle timeout plus that period is no longer
      in its serve loop. */
  lemma SilentSessionIsOut(cfg: Config, w: World, s: Hub.Sid, period: real)
    requires cfg.Valid() && Reachable(cfg, w) && s < |w.locals|
    requires w.clock - LastTick(w.locals[s].start, w.locals[s].trace) <= period
    requires w.clock > LastInbound(w.locals[s].start, w.locals[s].trace) + cfg.idleTimeout + period
    ensures !InLoop(w.locals[s].pc)
  {
    ReachableWire(cfg, w, s);
    hide Reachable, WireOk, LastTick, LastInbound;
    var l, me := w.locals[s], Me(w.hub.actors[s]);
    if InLoop(l.pc) {
      assert TraceOk(cfg, me, l, w.clock);
      hide SessionOk;
      IdleSessionEnds(cfg, me, l.start, l.trace, w.clock, period);
    }
  }

  /** A client that keeps talking is never cut off for idleness: if its session's ticks each came
      within the idle timeout of the one before, with a frame read in between, none of its turns so
      far was an idle disconnect. */
  lemma TalkingSessionStaysIn(cfg: Config, w: World, s: Hub.Sid, n: nat)
    requires Reachable(cfg, w) && s < |w.locals| && 0 < n <= |w.locals[s].trace|
    requires Fed(cfg, w.locals[s].start, w.locals[s].trace)
    ensures s < |w.hub.actors| && !IdleDisconnect(cfg, Me(w.hub.actors[s]), w.locals[s].start, w.locals[s].trace[..n])
  {
    hide Fed, IdleDisconnect, WireOk;
    ReachableWire(cfg, w, s);
    var l, me := w.locals[s], Me(w.hub.actors[s]);
    assert TraceOk(cfg, me, l, w.clock);
    TalkerIsNeverIdle(cfg, me, l.start, l.trace, w.clock, n);
  }
}
