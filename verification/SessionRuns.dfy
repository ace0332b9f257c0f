/** Whole sessions as functions of what they meet (server/src/actor/session.rs).

    What a session waits for comes from outside: each `Wake` says when the select was polled, which
    of its arms were ready, and what becomes of a write made in that turn. */
module SessionRuns {
  import opened Wrappers
  import opened Utf8
  import opened Frames
  import opened Codec
  import opened Clock
  import opened TokenBucket
  import opened SessionLoop
  import opened SessionTrace

  /** A write completes, or fails or is cut off after some of its bytes. */
  datatype Fate = Completes | Breaks(after: nat)

  datatype Wake = Wake(at: real, ready: Ready, fate: Fate)

  /** The loop goes on, or returns with or without an error. */
  datatype Exit = Running | Done | Faulted

  function Reached(x: Bytes, fate: Fate): Bytes {
    if fate.Breaks? && fate.after < |x| then x[..fate.after] else x
  }

  /** What one turn does to the world. */
  datatype Effect = Effect(exit: Exit, wire: Bytes, broadcasts: seq<Bytes>)

  /** A frame of the session's own is encoded first; one from the mailbox has been already. */
  predicate Written(arm: Arm, frame: ServerFrame, fate: Fate) { fate.Completes? && (arm.OnMail? || Fits(frame)) }

  function EffectOf(arm: Arm, r: Reaction, fate: Fate): Effect {
    match r
    case Continue => Effect(Running, [], [])
    case Stop => Effect(if arm.OnRead? && arm.inbound.Garbage? then Faulted else Done, [], [])
    case Broadcast(frame) => if Fits(frame) then Effect(Running, [], [WireOf(frame)]) else Effect(Faulted, [], [])
    case Write(frame, last) =>
      Effect(if last then (if arm.OnRead? then Faulted else Done)
             else if Written(arm, frame, fate) then Running else Faulted,
             Reached(WireOf(frame), fate), [])
  }

  /** A run of the loop so far: the turns it took, the bytes written, the frames broadcast. */
  datatype Outcome = Outcome(exit: Exit, trace: seq<Beat>, wire: Bytes, broadcasts: seq<Bytes>)

  function Turn(cfg: Config, me: Str, start: real, o: Outcome, p: Wake): Outcome {
    var arm := Select(p.ready);
    if !o.exit.Running? || arm.None? then o
    else
      var r := React(cfg, me, VarsAfter(cfg, me, start, o.trace), p.at, arm.value).1;
      var e := EffectOf(arm.value, r, p.fate);
      Outcome(e.exit, o.trace + [Beat(p.at, arm.value)], o.wire + e.wire, o.broadcasts + e.broadcasts)
  }

  function Turns(cfg: Config, me: Str, start: real, wakes: seq<Wake>): Outcome {
    if wakes == [] then Outcome(Running, [], [], [])
    else Turn(cfg, me, start, Turns(cfg, me, start, wakes[..|wakes| - 1]), wakes[|wakes| - 1])
  }

  /** What the handshake meets: whether shutdown was signalled, the first thing read unless the
      timeout came first, whether the hub finds the name taken, the occupancy it reports, and what
      becomes of the write. */
  datatype Opening = Opening(cancelled: bool, first: Option<Inbound>, taken: bool, occupancy: int, fate: Fate)

  /** What the handshake writes. */
  function Answer(o: Opening): Option<ServerFrame> {
    if o.cancelled || o.first.None? || !o.first.value.Frame? then None
    else
      match Judge(o.first.value.frame)
      case Refuse(frame) => Some(frame)
      case Accept(name) => Some(if o.taken then Rejected(AlreadyTaken(name)) else WelcomeFrame(name, o.occupancy))
  }

  function AnswerBytes(o: Opening): Bytes {
    match Answer(o)
    case None => []
    case Some(frame) => Reached(WireOf(frame), o.fate)
  }

  /** Who is in the room after the handshake. */
  function LetIn(o: Opening): Option<Str> {
    if Answer(o).Some? && Answer(o).value.Welcome? && Fits(Answer(o).value) && o.fate.Completes? then
      (match Judge(o.first.value.frame)
       case Refuse(_) => None
       case Accept(name) => Some(name))
    else None
  }

  /** A whole session: what it writes and broadcasts, and how it ends. */
  function Life(cfg: Config, o: Opening, now: real, wakes: seq<Wake>): Effect {
    match LetIn(o)
    case None => Effect(Faulted, AnswerBytes(o), [])
    case Some(me) =>
      if !Fits(Joined(me)) then Effect(Faulted, AnswerBytes(o), [])
      else
        var t := Turns(cfg, me, now, wakes);
        var last := if t.exit.Running? || !Fits(Departed(me)) then [] else [WireOf(Departed(me))];
        Effect(t.exit, AnswerBytes(o) + t.wire, [WireOf(Joined(me))] + t.broadcasts + last)
  }

  // ----- turns and traces -----

  lemma BeforeTheFirst(cfg: Config, me: Str, start: real, wakes: seq<Wake>)
    ensures var o := Turns(cfg, me, start, wakes[..0]);
            && o == Outcome(Running, [], [], [])
            && VarsAfter(cfg, me, start, o.trace) == Vars(start, Bucket(cfg.burst, start))
  {
  }

  lemma OneMore(cfg: Config, me: Str, start: real, wakes: seq<Wake>, i: nat)
    requires i < |wakes| && Turns(cfg, me, start, wakes[..i]).exit.Running?
    ensures var o, k := Turns(cfg, me, start, wakes[..i]), Turns(cfg, me, start, wakes[..i + 1]);
            var arm := Select(wakes[i].ready);
            if arm.None? then k == o
            else
              var (v, r) := React(cfg, me, VarsAfter(cfg, me, start, o.trace), wakes[i].at, arm.value);
              var e := EffectOf(arm.value, r, wakes[i].fate);
              && k.exit == e.exit && k.wire == o.wire + e.wire && k.broadcasts == o.broadcasts + e.broadcasts
              && k.trace == o.trace + [Beat(wakes[i].at, arm.value)]
              && VarsAfter(cfg, me, start, k.trace) == v
  {
    hide React, EffectOf, Select;
    assert wakes[..i + 1][..i] == wakes[..i];
    var o := Turns(cfg, me, start, wakes[..i]);
    if Select(wakes[i].ready).Some? {
      var beat := Beat(wakes[i].at, Select(wakes[i].ready).value);
      assert (o.trace + [beat])[..|o.trace|] == o.trace;
    }
  }

  /** A loop that has returned takes no further turn. */
  lemma {:induction false} OverIsOver(cfg: Config, me: Str, start: real, wakes: seq<Wake>, i: nat)
    requires i <= |wakes| && (i < |wakes| ==> !Turns(cfg, me, start, wakes[..i]).exit.Running?)
    ensures Turns(cfg, me, start, wakes) == Turns(cfg, me, start, wakes[..i])
    decreases |wakes|
  {
    hide React, EffectOf, Select;
    if i == |wakes| {
      assert wakes[..i] == wakes;
    } else {
      var front := wakes[..|wakes| - 1];
      assert front[..i] == wakes[..i];
      OverIsOver(cfg, me, start, front, i);
    }
  }

  /** What the turns of a trace wrote, and what they broadcast. */
  function Writes(cfg: Config, me: Str, start: real, trace: seq<Beat>): seq<ServerFrame> {
    if trace == [] then []
    else
      var before, r := Writes(cfg, me, start, trace[..|trace| - 1]), LastReaction(cfg, me, start, trace);
      if r.Write? then before + [r.frame] else before
  }

  function Posts(cfg: Config, me: Str, start: real, trace: seq<Beat>): seq<ServerFrame> {
    if trace == [] then []
    else
      var before, r := Posts(cfg, me, start, trace[..|trace| - 1]), LastReaction(cfg, me, start, trace);
      if r.Broadcast? then before + [r.frame] else before
  }

  function Encoded(frames: seq<ServerFrame>): seq<Bytes> {
    seq(|frames|, i requires 0 <= i < |frames| => WireOf(frames[i]))
  }

  /** The reader hands over frames that came off the wire, the mailbox frames that were encoded. */
  predicate WellFed(wakes: seq<Wake>) {
    forall i :: 0 <= i < |wakes| && Select(wakes[i].ready).Some? ==> ArmFits(Select(wakes[i].ready).value)
  }

  predicate Timely(start: real, wakes: seq<Wake>, now: real) { NeverBackwards(WakeTime, start, wakes, now) }

  function WakeTime(p: Wake): real { p.at }

  lemma LastTurn(cfg: Config, me: Str, start: real, wakes: seq<Wake>)
    requires wakes != []
    ensures var o, k := Turns(cfg, me, start, wakes[..|wakes| - 1]), Turns(cfg, me, start, wakes);
            var p := wakes[|wakes| - 1];
            var arm := Select(p.ready);
            if !o.exit.Running? || arm.None? then k == o
            else
              && k.trace == o.trace + [Beat(p.at, arm.value)] && k.trace[..|k.trace| - 1] == o.trace
              && var e := EffectOf(arm.value, LastReaction(cfg, me, start, k.trace), p.fate);
                 k.exit == e.exit && k.wire == o.wire + e.wire && k.broadcasts == o.broadcasts + e.broadcasts
  {
    hide React, EffectOf, Select;
    var o := Turns(cfg, me, start, wakes[..|wakes| - 1]);
    if Select(wakes[|wakes| - 1].ready).Some? {
      var beat := Beat(wakes[|wakes| - 1].at, Select(wakes[|wakes| - 1].ready).value);
      assert (o.trace + [beat])[..|o.trace|] == o.trace;
    }
  }

  /** A loop that is still running has taken no turn that ends it. */
  lemma {:induction false} RunningIsAlive(cfg: Config, me: Str, start: real, wakes: seq<Wake>)
    requires Turns(cfg, me, start, wakes).exit.Running?
    ensures Alive(cfg, me, start, Turns(cfg, me, start, wakes).trace)
    decreases |wakes|
  {
    hide Turns, LastReaction, Select;
    if wakes == [] {
      BeforeTheFirst(cfg, me, start, wakes);
    } else {
      LastTurn(cfg, me, start, wakes);
      RunningIsAlive(cfg, me, start, wakes[..|wakes| - 1]);
    }
  }

  lemma {:induction false} TurnsInOrder(cfg: Config, me: Str, start: real, wakes: seq<Wake>, now: real)
    requires Timely(start, wakes, now)
    ensures InOrder(start, Turns(cfg, me, start, wakes).trace, now)
    decreases |wakes|
  {
    hide Turns, LastReaction, Select, EffectOf;
    if wakes == [] {
      BeforeTheFirst(cfg, me, start, wakes);
    } else {
      LastTurn(cfg, me, start, wakes);
      TurnsInOrder(cfg, me, start, wakes[..|wakes| - 1], wakes[|wakes| - 1].at);
      InOrderLater(start, Turns(cfg, me, start, wakes[..|wakes| - 1]).trace, wakes[|wakes| - 1].at, now);
    }
  }

  lemma InOrderLater(start: real, trace: seq<Beat>, now: real, later: real)
    requires InOrder(start, trace, now) && now <= later
    ensures InOrder(start, trace, later)
  {
  }

  /** An idle client's loop returns: it cannot still be running when no frame has come for longer
      than the idle timeout plus the time since the timer last fired. */
  lemma IdleLoopReturns(cfg: Config, me: Str, start: real, wakes: seq<Wake>, now: real, period: real)
    requires cfg.Valid() && Timely(start, wakes, now)
    requires now - LastTick(start, Turns(cfg, me, start, wakes).trace) <= period
    requires now > LastInbound(start, Turns(cfg, me, start, wakes).trace) + cfg.idleTimeout + period
    ensures !Turns(cfg, me, start, wakes).exit.Running?
  {
    hide Turns;
    TurnsInOrder(cfg, me, start, wakes, now);
    IdleSessionEnds(cfg, me, start, Turns(cfg, me, start, wakes).trace, now, period);
    if Turns(cfg, me, start, wakes).exit.Running? { RunningIsAlive(cfg, me, start, wakes); }
  }

  /** Shutdown comes first: the first poll that sees it ends the loop without an error, whatever
      else is ready, with nothing broadcast and the goodbye written as far as it gets. */
  lemma ShutdownComesFirst(cfg: Config, me: Str, start: real, wakes: seq<Wake>, k: nat)
    requires k < |wakes| && wakes[k].ready.cancelled && Turns(cfg, me, start, wakes[..k]).exit.Running?
    ensures var before, o := Turns(cfg, me, start, wakes[..k]), Turns(cfg, me, start, wakes);
            && o.exit == Done && o.broadcasts == before.broadcasts && |o.trace| == |before.trace| + 1
            && o.wire == before.wire + Reached(WireOf(Error(Ascii("server shutting down"))), wakes[k].fate)
  {
    hide Turns, WireOf;
    OneMore(cfg, me, start, wakes, k);
    OverIsOver(cfg, me, start, wakes, k + 1);
  }

  // ----- what reaches the client and the room -----

  /** A frame of the room: this session's message, small enough to send. */
  predicate IsPost(me: Str, f: ServerFrame) { f.Message? && f.from == me && Fits(f) }

  lemma FedTurn(cfg: Config, me: Str, start: real, trace: seq<Beat>)
    requires ValidName(me) && trace != [] && ArmFits(trace[|trace| - 1].arm)
    ensures var r := LastReaction(cfg, me, start, trace);
            (r.Write? ==> Fits(r.frame)) && (r.Broadcast? ==> IsPost(me, r.frame))
  {
    hide React, Fits;
    var last := trace[|trace| - 1];
    ReactionFits(cfg, me, VarsAfter(cfg, me, start, trace[..|trace| - 1]), last.at, last.arm);
  }

  /** What the loop broadcasts is its messages, encoded, in order. */
  lemma {:induction false} BroadcastsArePosts(cfg: Config, me: Str, start: real, wakes: seq<Wake>)
    requires ValidName(me) && WellFed(wakes)
    ensures var o := Turns(cfg, me, start, wakes);
            && o.broadcasts == Encoded(Posts(cfg, me, start, o.trace))
            && forall i :: 0 <= i < |Posts(cfg, me, start, o.trace)| ==> IsPost(me, Posts(cfg, me, start, o.trace)[i])
    decreases |wakes|
  {
    hide Turns, LastReaction, Select, ArmFits, IsPost, ValidateUsername, WireOf;
    if wakes == [] {
      BeforeTheFirst(cfg, me, start, wakes);
    } else {
      LastTurn(cfg, me, start, wakes);
      BroadcastsArePosts(cfg, me, start, wakes[..|wakes| - 1]);
      var o, k := Turns(cfg, me, start, wakes[..|wakes| - 1]), Turns(cfg, me, start, wakes);
      if k != o {
        FedTurn(cfg, me, start, k.trace);
        var r := LastReaction(cfg, me, start, k.trace);
        if r.Broadcast? { PostFits(me, r.frame); }
      }
    }
  }

  lemma PostFits(me: Str, f: ServerFrame)
    requires IsPost(me, f)
    ensures Fits(f)
  {
  }

  lemma {:induction false} PostsArePublished(cfg: Config, me: Str, start: real, trace: seq<Beat>, now: real)
    requires InOrder(start, trace, now)
    ensures |Posts(cfg, me, start, trace)| == Published(cfg, me, start, trace, start, now)
    decreases |trace|
  {
    hide LastReaction;
    if trace != [] {
      PostsArePublished(cfg, me, start, trace[..|trace| - 1], trace[|trace| - 1].at);
      LastsInOrder(start, trace, now);
      AllWithin(cfg, me, start, trace[..|trace| - 1], trace[|trace| - 1].at, now);
      StartsBefore(start, trace, now);
    }
  }

  lemma StartsBefore(start: real, trace: seq<Beat>, now: real)
    requires InOrder(start, trace, now) && trace != []
    ensures start <= trace[|trace| - 1].at <= now
  {
    LastsInOrder(start, trace[..|trace| - 1], trace[|trace| - 1].at);
  }

  lemma {:induction false} AllWithin(cfg: Config, me: Str, start: real, trace: seq<Beat>, now: real, later: real)
    requires InOrder(start, trace, now) && now <= later
    ensures Published(cfg, me, start, trace, start, now) == Published(cfg, me, start, trace, start, later)
    decreases |trace|
  {
    hide LastReaction;
    if trace != [] {
      var at := trace[|trace| - 1].at;
      AllWithin(cfg, me, start, trace[..|trace| - 1], at, now);
      AllWithin(cfg, me, start, trace[..|trace| - 1], at, later);
    }
  }

  /** Whatever the client sends, the object broadcasts at most burst plus refill rate times the
      time it has been in the loop. */
  lemma LoopIsNoFlood(cfg: Config, me: Str, start: real, wakes: seq<Wake>, now: real)
    requires cfg.Valid() && ValidName(me) && WellFed(wakes) && Timely(start, wakes, now)
    ensures |Turns(cfg, me, start, wakes).broadcasts| as real <= cfg.burst + (now - start) * cfg.refillPerSec
  {
    hide Turns, WellFed, ValidateUsername;
    var trace := Turns(cfg, me, start, wakes).trace;
    TurnsInOrder(cfg, me, start, wakes, now);
    LastsInOrder(start, trace, now);
    BroadcastsArePosts(cfg, me, start, wakes);
    PostsArePublished(cfg, me, start, trace, now);
    FloodBound(cfg, me, start, trace, now, start, now);
  }

  lemma {:induction false} EncodeAllPush(frames: seq<ServerFrame>, f: ServerFrame)
    requires AllFit(ServerPayload, frames) && Fits(f)
    ensures AllFit(ServerPayload, frames + [f])
    ensures EncodeAll(ServerPayload, frames + [f]) == EncodeAll(ServerPayload, frames) + WireOf(f)
    decreases |frames|
  {
    hide ServerPayload, Framed;
    if frames == [] {
      assert frames + [f] == [f] && [f][1..] == [];
    } else {
      var all := frames + [f];
      assert all[0] == frames[0] && all[1..] == frames[1..] + [f];
      EncodeAllPush(frames[1..], f);
      assert EncodeAll(ServerPayload, all) == Framed(ServerPayload(frames[0])) + EncodeAll(ServerPayload, all[1..]);
    }
  }

  /** While the loop runs, its bytes are exactly the frames of its turns. */
  lemma {:induction false} RunningWire(cfg: Config, me: Str, start: real, wakes: seq<Wake>)
    requires ValidName(me) && WellFed(wakes) && Turns(cfg, me, start, wakes).exit.Running?
    ensures var o := Turns(cfg, me, start, wakes);
            var frames := Writes(cfg, me, start, o.trace);
            AllFit(ServerPayload, frames) && o.wire == EncodeAll(ServerPayload, frames)
    decreases |wakes|
  {
    hide Turns, LastReaction, Select, ArmFits, ValidateUsername, WireOf, Fits, EncodeAll, AllFit;
    if wakes == [] {
      BeforeTheFirst(cfg, me, start, wakes);
      NoFrames();
    } else {
      LastTurn(cfg, me, start, wakes);
      RunningWire(cfg, me, start, wakes[..|wakes| - 1]);
      var o, k := Turns(cfg, me, start, wakes[..|wakes| - 1]), Turns(cfg, me, start, wakes);
      if k != o {
        FedTurn(cfg, me, start, k.trace);
        var r := LastReaction(cfg, me, start, k.trace);
        if r.Write? { EncodeAllPush(Writes(cfg, me, start, o.trace), r.frame); }
      }
    }
  }

  lemma NoFrames()
    ensures AllFit<ServerFrame>(ServerPayload, []) && EncodeAll<ServerFrame>(ServerPayload, []) == []
  {
  }

  /** The client can always decode what the loop writes. While the loop runs it sees exactly the
      frames of its turns; once the loop has returned, the last of them may be missing or cut. */
  lemma {:induction false} ClientFollowsLoop(cfg: Config, me: Str, start: real, wakes: seq<Wake>)
    requires ValidName(me) && WellFed(wakes)
    ensures var o := Turns(cfg, me, start, wakes);
            var p, frames := ParseAll(ParseServer, o.wire), Writes(cfg, me, start, o.trace);
            && p.end.Pending? && p.frames <= frames && |frames| <= |p.frames| + 1
            && (o.exit.Running? ==> p.frames == frames && p.end.rest == [])
    decreases |wakes|
  {
    hide Turns, LastReaction, Select, ArmFits, ValidateUsername, WireOf, Fits, EncodeAll, AllFit, ParseAll;
    var k := Turns(cfg, me, start, wakes);
    if wakes == [] {
      BeforeTheFirst(cfg, me, start, wakes);
      NothingParsed(ParseServer);
    } else {
      var front := wakes[..|wakes| - 1];
      var o := Turns(cfg, me, start, front);
      LastTurn(cfg, me, start, wakes);
      if k == o {
        ClientFollowsLoop(cfg, me, start, front);
      } else {
        RunningWire(cfg, me, start, front);
        FedTurn(cfg, me, start, k.trace);
        var r := LastReaction(cfg, me, start, k.trace);
        var f, fate := if r.Write? then r.frame else Ping, if r.Write? then wakes[|wakes| - 1].fate else Breaks(0);
        PingFits();
        if !r.Write? { assert k.wire == o.wire + []; }
        WholeStream(Writes(cfg, me, start, o.trace), f, fate);
      }
    }
  }

  lemma PingFits()
    ensures Fits(Ping) && WireOf(Ping) != [] && Reached(WireOf(Ping), Breaks(0)) == []
  {
  }

  /** A stream of whole frames and what reached the client of one more. */
  lemma WholeStream(frames: seq<ServerFrame>, next: ServerFrame, fate: Fate)
    requires AllFit(ServerPayload, frames) && Fits(next)
    ensures var p := ParseAll(ParseServer, EncodeAll(ServerPayload, frames) + Reached(WireOf(next), fate));
            && p.end.Pending?
            && (if fate.Completes? || fate.after >= |WireOf(next)| then p.frames == frames + [next] && p.end.rest == []
                else p.frames == frames && p.end.rest == WireOf(next)[..fate.after])
  {
    hide ParseAll, EncodeAll, AllFit, ServerPayload, Inverse, PutU32;
    ServerInverse();
    assert WireOf(next) == Framed(ServerPayload(next)) && WireOf(next)[..0] == [];
    if fate.Completes? || fate.after >= |WireOf(next)| {
      EncodeAllPush(frames, next);
      assert EncodeAll(ServerPayload, frames + [next]) + [] == EncodeAll(ServerPayload, frames + [next]);
      StreamRoundTrip(ParseServer, ServerPayload, frames + [next], next, 0);
    } else {
      StreamRoundTrip(ParseServer, ServerPayload, frames, next, fate.after);
    }
  }

  /** A session that is let in says Joined first, then its messages, and Departed last, however its
      loop returns; one that is not says nothing. */
  lemma LifeIsBracketed(cfg: Config, o: Opening, now: real, wakes: seq<Wake>)
    requires WellFed(wakes) && (o.first.Some? && o.first.value.Frame? ==> FromWire(o.first.value.frame))
    ensures var e := Life(cfg, o, now, wakes);
            match LetIn(o)
            case None => e.exit == Faulted && e.broadcasts == []
            case Some(me) =>
              var trace := Turns(cfg, me, now, wakes).trace;
              && e.broadcasts
                 == [WireOf(Joined(me))] + Encoded(Posts(cfg, me, now, trace))
                    + (if e.exit.Running? then [] else [WireOf(Departed(me))])
              && (forall i :: 0 <= i < |Posts(cfg, me, now, trace)| ==> IsPost(me, Posts(cfg, me, now, trace)[i]))
  {
    hide Turns, Fits, WireOf, Posts, Encoded, IsPost;
    match LetIn(o)
    case None =>
    case Some(me) =>
      HandshakeFits(o.first.value.frame, o.occupancy);
      BroadcastsArePosts(cfg, me, now, wakes);
  }
}
