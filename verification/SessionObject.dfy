/** The session as an object: its writer, its handshake and its serve loop, each proved to do what
    SessionRuns describes (server/src/actor/session.rs). */
module SessionObject {
  import opened Wrappers
  import opened Utf8
  import opened Frames
  import opened Codec
  import opened PostcardCodec
  import opened TokenBucket
  import opened SessionLoop
  import opened SessionTrace
  import opened SessionRuns
  import Limiter = RateLimiter

  class Writer {
    var bytes: Bytes

    constructor ()
      ensures bytes == []
    {
      bytes := [];
    }

    method WriteAll(x: Bytes, fate: Fate) returns (ok: bool)
      modifies this
      ensures ok == fate.Completes? && bytes == old(bytes) + Reached(x, fate)
    {
      match fate
      case Completes =>
        bytes := bytes + x;
        ok := true;
      case Breaks(after) =>
        bytes := bytes + if after < |x| then x[..after] else x;
        ok := false;
    }
  }

  class Session {
    const config: Config
    const writer: Writer
    /** What has been handed to the hub to broadcast. */
    var broadcasts: seq<Bytes>

    constructor (config: Config, writer: Writer)
      ensures this.config == config && this.writer == writer && broadcasts == []
    {
      this.config := config;
      this.writer := writer;
      broadcasts := [];
    }

    method SendFrame(frame: ServerFrame, fate: Fate) returns (ok: bool)
      modifies writer
      ensures ok == (Fits(frame) && fate.Completes?)
      ensures writer.bytes == old(writer.bytes) + Reached(WireOf(frame), fate)
    {
      var encoded := EncodeFrame(ServerPayload, frame);
      match encoded
      case Err(_) => ok := false;
      case Ok(bytes) => ok := writer.WriteAll(bytes, fate);
    }

    /** A Send in the serve loop. */
    method HandleSend(me: Str, now: real, body: Str, limiter: Limiter.RateLimiter, fate: Fate) returns (exit: Exit)
      requires limiter.Config() == config.Limits()
      modifies this`broadcasts, writer, limiter
      ensures var (v, r) := OnSend(config, me, Vars(now, old(limiter.Value())), now, body);
              var e := EffectOf(OnRead(Frame(Send(body))), r, fate);
              && limiter.Value() == v.bucket && exit == e.exit
              && writer.bytes == old(writer.bytes) + e.wire && broadcasts == old(broadcasts) + e.broadcasts
    {
      hide Fits, Consume, Admits, Reached;
      var invalid := ValidateBody(body);
      if invalid.Some? {
        var sent := SendFrame(Error(Describe(invalid.value)), fate);
        return if sent then Running else Faulted;
      }
      var admitted := limiter.TryConsume(ONE_MESSAGE, now);
      if !admitted {
        var sent := SendFrame(Error(Ascii("rate limit exceeded; slow down")), fate);
        return if sent then Running else Faulted;
      }
      var payload := EncodeFrame(ServerPayload, Message(me, body));
      if payload.Err? {
        assert !Fits(Message(me, body)) by { FitsIsEncodable(Message(me, body)); }
        return Faulted;
      }
      FitsIsEncodable(Message(me, body));
      broadcasts := broadcasts + [payload.value];
      exit := Running;
    }

    /** A frame read in the serve loop. */
    method HandleFrame(me: Str, now: real, frame: ClientFrame, limiter: Limiter.RateLimiter,
                       fate: Fate) returns (exit: Exit)
      requires limiter.Config() == config.Limits()
      modifies this`broadcasts, writer, limiter
      ensures var (v, r) := OnFrame(config, me, Vars(now, old(limiter.Value())), now, frame);
              var e := EffectOf(OnRead(Frame(frame)), r, fate);
              && limiter.Value() == v.bucket && exit == e.exit
              && writer.bytes == old(writer.bytes) + e.wire && broadcasts == old(broadcasts) + e.broadcasts
    {
      hide OnSend, Fits, Reached;
      match frame
      case Send(body) =>
        exit := HandleSend(me, now, body, limiter, fate);
      case Pong =>
        exit := Running;
      case Leave =>
        exit := Done;
      case Hello(_, _) =>
        var sent := SendFrame(Error(Ascii("protocol violation: Hello after handshake")), fate);
        exit := Faulted;
    }

    /** The timer fires. */
    method HandleTick(now: real, lastActivity: real, fate: Fate) returns (exit: Exit)
      modifies writer
      ensures var e := EffectOf(OnTick, React(config, [], Vars(lastActivity, Bucket(0.0, now)), now, OnTick).1, fate);
              exit == e.exit && writer.bytes == old(writer.bytes) + e.wire && e.broadcasts == []
    {
      hide Fits, Reached;
      if Elapsed(lastActivity, now) > config.idleTimeout {
        var sent := SendFrame(Error(Ascii("idle timeout")), fate);
        return Done;
      }
      var sent := SendFrame(Ping, fate);
      exit := if sent then Running else Faulted;
    }

    /** One pass through the select: shutdown before the reader, the reader before the mailbox, the
        mailbox before the timer. */
    method Pass(me: Str, lastActivity: real, limiter: Limiter.RateLimiter, p: Wake) returns (exit: Exit, activity: real)
      requires limiter.Config() == config.Limits()
      modifies this`broadcasts, writer, limiter
      ensures var arm := Select(p.ready);
              if arm.None? then
                exit == Running && activity == lastActivity && limiter.Value() == old(limiter.Value())
                && writer.bytes == old(writer.bytes) && broadcasts == old(broadcasts)
              else
                var (v, r) := React(config, me, Vars(lastActivity, old(limiter.Value())), p.at, arm.value);
                var e := EffectOf(arm.value, r, p.fate);
                && exit == e.exit && Vars(activity, limiter.Value()) == v
                && writer.bytes == old(writer.bytes) + e.wire && broadcasts == old(broadcasts) + e.broadcasts
    {
      hide OnSend, Fits, Reached;
      exit, activity := Running, lastActivity;
      if p.ready.cancelled {
        var sent := SendFrame(Error(Ascii("server shutting down")), p.fate);
        exit := Done;
      } else if p.ready.inbound.Some? {
        match p.ready.inbound.value
        case Eof => exit := Done;
        case Garbage => exit := Faulted;
        case Frame(frame) =>
          activity := p.at;
          EarlierActivityForgotten(config, me, Vars(lastActivity, limiter.Value()), p.at, frame);
          exit := HandleFrame(me, p.at, frame, limiter, p.fate);
      } else if p.ready.mail.Some? {
        match p.ready.mail.value
        case None => exit := Done;
        case Some(frame) =>
          var sent := writer.WriteAll(WireOf(frame), p.fate);
          exit := if sent then Running else Faulted;
      } else if p.ready.tick {
        exit := HandleTick(p.at, lastActivity, p.fate);
      }
    }

    /** The serve loop, over whatever the select meets; `Running` if it is still waiting. */
    method ServeLoop(me: Str, now: real, wakes: seq<Wake>) returns (exit: Exit)
      modifies this`broadcasts, writer
      ensures var o := Turns(config, me, now, wakes);
              exit == o.exit
              && writer.bytes == old(writer.bytes) + o.wire && broadcasts == old(broadcasts) + o.broadcasts
    {
      hide Turns, Turn, React, EffectOf, VarsAfter, Select;
      var lastActivity := now;
      var limiter := new Limiter.RateLimiter(config.burst, config.refillPerSec, now);
      var i := 0;
      exit := Running;
      BeforeTheFirst(config, me, now, wakes);
      while i < |wakes| && exit.Running?
        invariant i <= |wakes|
        invariant fresh(limiter) && limiter.Config() == config.Limits()
        invariant exit == Turns(config, me, now, wakes[..i]).exit
        invariant writer.bytes == old(writer.bytes) + Turns(config, me, now, wakes[..i]).wire
        invariant broadcasts == old(broadcasts) + Turns(config, me, now, wakes[..i]).broadcasts
        invariant exit.Running? ==>
          VarsAfter(config, me, now, Turns(config, me, now, wakes[..i]).trace) == Vars(lastActivity, limiter.Value())
      {
        OneMore(config, me, now, wakes, i);
        exit, lastActivity := Pass(me, lastActivity, limiter, wakes[i]);
        i := i + 1;
      }
      OverIsOver(config, me, now, wakes, i);
    }

    /** The handshake: nobody if the session is to end here. */
    method Handshake(o: Opening) returns (me: Option<Str>)
      modifies writer
      ensures me == LetIn(o) && writer.bytes == old(writer.bytes) + AnswerBytes(o)
    {
      hide Fits, Reached, WireOf, Judge, WelcomeFrame, AlreadyTaken;
      if o.cancelled || o.first.None? || !o.first.value.Frame? {
        return None;
      }
      match Judge(o.first.value.frame) {
        case Refuse(frame) =>
          RefusalIsRejected(o.first.value.frame);
          var sent := SendFrame(frame, o.fate);
          return None;
        case Accept(name) =>
          if o.taken {
            var sent := SendFrame(Rejected(AlreadyTaken(name)), o.fate);
            return None;
          }
          WelcomeIsWelcome(name, o.occupancy);
          var sent := SendFrame(WelcomeFrame(name, o.occupancy), o.fate);
          me := if sent then Some(name) else None;
      }
    }

    /** The whole session: handshake, Joined, serve loop, and Departed however the loop returned. */
    method Run(o: Opening, now: real, wakes: seq<Wake>) returns (exit: Exit)
      modifies this`broadcasts, writer
      ensures var e := Life(config, o, now, wakes);
              && exit == e.exit && writer.bytes == old(writer.bytes) + e.wire
              && broadcasts == old(broadcasts) + e.broadcasts
    {
      hide Fits, Turns, LetIn, AnswerBytes, WireOf;
      var me := Handshake(o);
      if me.None? {
        return Faulted;
      }
      FitsIsEncodable(Joined(me.value));
      var joined := EncodeFrame(ServerPayload, Joined(me.value));
      if joined.Err? {
        return Faulted;
      }
      broadcasts := broadcasts + [joined.value];
      exit := ServeLoop(me.value, now, wakes);
      if !exit.Running? {
        FitsIsEncodable(Departed(me.value));
        var departed := EncodeFrame(ServerPayload, Departed(me.value));
        if departed.Ok? {
          broadcasts := broadcasts + [departed.value];
        }
      }
    }
  }

  lemma RefusalIsRejected(first: ClientFrame)
    ensures Judge(first).Refuse? ==> Judge(first).frame.Rejected?
  {
  }

  lemma WelcomeIsWelcome(name: Str, occupancy: int)
    ensures WelcomeFrame(name, occupancy).Welcome?
  {
  }

  lemma EarlierActivityForgotten(cfg: Config, me: Str, v: Vars, now: real, frame: ClientFrame)
    ensures OnFrame(cfg, me, v, now, frame).0.lastActivity == now
    ensures OnFrame(cfg, me, v, now, frame) == OnFrame(cfg, me, Vars(now, v.bucket), now, frame)
  {
  }

  lemma FitsIsEncodable(f: ServerFrame)
    ensures Fits(f) <==> EncodePayload(ServerPayload(f)).Ok?
    ensures Fits(f) ==> EncodePayload(ServerPayload(f)) == Ok(WireOf(f))
  {
  }
}
