/** What a session does, said outright: whom it lets in, and how its loop answers whatever comes
    (server/src/actor/session.rs). */
module SessionLaws {
  import opened Wrappers
  import opened Utf8
  import opened Frames
  import opened Codec
  import opened TokenBucket
  import opened SessionLoop
  import opened SessionTrace
  import opened SessionRuns

  // ----- the handshake -----

  /** A name of 1 to 32 letters, digits, underscores and hyphens. */
  predicate IsName(s: Str) {
    && 1 <= |s| <= 32
    && forall b :: b in s ==> 48 <= b <= 57 || 65 <= b <= 90 || 97 <= b <= 122 || b == 95 || b == 45
  }

  lemma NamesAreValid(s: Str)
    ensures IsName(s) <==> ValidName(s)
  {
  }

  /** Whom the handshake lets in: exactly those whose first frame is a Hello of version 1 with a
      valid name that is free, and whose Welcome gets out. */
  lemma LetInExactly(o: Opening, me: Str)
    ensures LetIn(o) == Some(me) <==>
      && !o.cancelled && o.first == Some(Frame(Hello(1, me))) && IsName(me) && !o.taken && o.fate == Completes
  {
    hide Fits, ValidateUsername, IsName, WelcomeFrame, AlreadyTaken;
    if o.first.Some? && o.first.value.Frame? && o.first.value.frame.Hello? {
      var name := o.first.value.frame.username;
      NamesAreValid(name);
      IsWelcome(name, o.occupancy);
      if ValidName(name) { NameFramesFit(name, o.occupancy); }
    }
    NotWelcome(o);
  }

  lemma IsWelcome(name: Str, occupancy: int)
    ensures WelcomeFrame(name, occupancy).Welcome?
  {
  }

  lemma NotWelcome(o: Opening)
    ensures Answer(o).Some? && Answer(o).value.Welcome? ==>
      && !o.cancelled && !o.taken && o.first.Some? && o.first.value.Frame?
      && o.first.value.frame.Hello? && Judge(o.first.value.frame) == Accept(o.first.value.frame.username)
      && o.first.value.frame.version == 1 && ValidName(o.first.value.frame.username)
  {
    hide ValidateUsername, Describe, Decimal;
  }

  /** What the client reads: nothing if nothing was read from it but the end of its stream or
      garbage, or if the shutdown came first; Welcome if it asks rightly for a free name; and else
      Rejected. Welcome greets it by its name and carries the occupancy, as far as 32 bits go. */
  lemma EveryoneIsAnswered(o: Opening)
    ensures o.cancelled || o.first.None? || !o.first.value.Frame? ==> AnswerBytes(o) == []
    ensures !o.cancelled && o.first.Some? && o.first.value.Frame? ==>
      var f := o.first.value.frame;
      if f.Hello? && f.version == 1 && IsName(f.username) && !o.taken then
        exists w: ServerFrame ::
          && AnswerBytes(o) == Reached(WireOf(w), o.fate)
          && w.Welcome? && w.motd == [119, 101, 108, 99, 111, 109, 101, 44, 32] + f.username + [46]
          && w.occupancy == if 0 <= o.occupancy < 0x1_0000_0000 then o.occupancy else 0xFFFF_FFFF
      else
        exists reason: Str :: AnswerBytes(o) == Reached(WireOf(Rejected(reason)), o.fate)
  {
    hide Fits, ValidateUsername, IsName, AlreadyTaken, WireOf, Reached, Describe, Decimal;
    if !o.cancelled && o.first.Some? && o.first.value.Frame? {
      var f := o.first.value.frame;
      if f.Hello? { NamesAreValid(f.username); }
      if f.Hello? && f.version == 1 && IsName(f.username) && !o.taken {
        Banner(f.username);
        var w := WelcomeFrame(f.username, o.occupancy);
        assert AnswerBytes(o) == Reached(WireOf(w), o.fate) && w.Welcome?;
      } else {
        var reason := Answer(o).value.reason;
        assert AnswerBytes(o) == Reached(WireOf(Rejected(reason)), o.fate);
      }
    }
  }

  lemma Banner(name: Str)
    ensures Welcoming(name) == [119, 101, 108, 99, 111, 109, 101, 44, 32] + name + [46]
  {
    assert Ascii("welcome, ") == [119, 101, 108, 99, 111, 109, 101, 44, 32];
    assert Ascii(".") == [46];
  }

  // ----- the serve loop -----

  /** The loop has come to wake `k` and is still running, and no shutdown has been seen. */
  predicate Going(cfg: Config, me: Str, start: real, wakes: seq<Wake>, k: nat) {
    k < |wakes| && Turns(cfg, me, start, wakes[..k]).exit.Running? && !wakes[k].ready.cancelled
  }

  /** The turn wrote these bytes and nothing was broadcast. */
  predicate Only(o: Outcome, n: Outcome, exit: Exit, wire: Bytes) {
    n.exit == exit && n.wire == o.wire + wire && n.broadcasts == o.broadcasts
  }

  /** A client that leaves, or whose stream ends, ends the loop without an error, and one that sends
      garbage ends it with one; nothing is written or broadcast. A Pong changes nothing. All this
      whatever frames are queued for the client and whatever the timer does. */
  lemma PoliteAndBroken(cfg: Config, me: Str, start: real, wakes: seq<Wake>, k: nat)
    requires Going(cfg, me, start, wakes, k) && wakes[k].ready.inbound.Some?
    ensures var o, n := Turns(cfg, me, start, wakes[..k]), Turns(cfg, me, start, wakes[..k + 1]);
            match wakes[k].ready.inbound.value
            case Eof => Only(o, n, Done, [])
            case Garbage => Only(o, n, Faulted, [])
            case Frame(Leave) => Only(o, n, Done, [])
            case Frame(Pong) => Only(o, n, Running, [])
            case _ => true
  {
    hide Turns, VarsAfter, OnSend;
    OneMore(cfg, me, start, wakes, k);
    var o := Turns(cfg, me, start, wakes[..k]);
    assert o.wire + [] == o.wire && o.broadcasts + [] == o.broadcasts;
  }

  /** A second Hello is answered with an Error and ends the loop with an error. */
  lemma SecondHello(cfg: Config, me: Str, start: real, wakes: seq<Wake>, k: nat)
    requires Going(cfg, me, start, wakes, k) && wakes[k].ready.inbound.Some?
    requires wakes[k].ready.inbound.value.Frame? && wakes[k].ready.inbound.value.frame.Hello?
    ensures var o, n := Turns(cfg, me, start, wakes[..k]), Turns(cfg, me, start, wakes[..k + 1]);
            Only(o, n, Faulted,
                 Reached(WireOf(Error(Ascii("protocol violation: Hello after handshake"))), wakes[k].fate))
  {
    hide Turns, VarsAfter, OnSend, WireOf, Reached;
    OneMore(cfg, me, start, wakes, k);
    var o := Turns(cfg, me, start, wakes[..k]);
    assert o.broadcasts + [] == o.broadcasts;
  }

  /** With nothing to read, a queued frame is written before the timer is heard; if the write breaks
      the loop ends with an error. The end of the mailbox ends the loop. */
  lemma MailBeforeTick(cfg: Config, me: Str, start: real, wakes: seq<Wake>, k: nat)
    requires Going(cfg, me, start, wakes, k) && wakes[k].ready.inbound.None? && wakes[k].ready.mail.Some?
    ensures var o, n := Turns(cfg, me, start, wakes[..k]), Turns(cfg, me, start, wakes[..k + 1]);
            match wakes[k].ready.mail.value
            case None => Only(o, n, Done, [])
            case Some(f) =>
              Only(o, n, if wakes[k].fate.Completes? then Running else Faulted, Reached(WireOf(f), wakes[k].fate))
  {
    hide Turns, VarsAfter, WireOf, Reached;
    OneMore(cfg, me, start, wakes, k);
    var o := Turns(cfg, me, start, wakes[..k]);
    assert o.wire + [] == o.wire && o.broadcasts + [] == o.broadcasts;
  }

  /** With nothing else to do, a tick within the idle timeout of the last frame read writes a Ping,
      and a later one says so and ends the loop. */
  lemma TickLast(cfg: Config, me: Str, start: real, wakes: seq<Wake>, k: nat)
    requires cfg.Valid() && Going(cfg, me, start, wakes, k)
    requires wakes[k].ready.inbound.None? && wakes[k].ready.mail.None? && wakes[k].ready.tick
    ensures var o, n := Turns(cfg, me, start, wakes[..k]), Turns(cfg, me, start, wakes[..k + 1]);
            if wakes[k].at - LastInbound(start, o.trace) <= cfg.idleTimeout then
              Only(o, n, if wakes[k].fate.Completes? then Running else Faulted, Reached([0, 0, 0, 1, 5], wakes[k].fate))
            else
              Only(o, n, Done, Reached(WireOf(Error(Ascii("idle timeout"))), wakes[k].fate))
  {
    hide Turns, VarsAfter, WireOf, Reached, LastInbound, Fits;
    OneMore(cfg, me, start, wakes, k);
    var o := Turns(cfg, me, start, wakes[..k]);
    ActivityIsLastInbound(cfg, me, start, o.trace);
    PingOnTheWire();
    assert o.broadcasts + [] == o.broadcasts;
  }

  lemma PingOnTheWire()
    ensures Fits(Ping) && WireOf(Ping) == [0, 0, 0, 1, 5]
  {
  }

  /** With nothing ready nothing happens. */
  lemma NothingReady(cfg: Config, me: Str, start: real, wakes: seq<Wake>, k: nat)
    requires Going(cfg, me, start, wakes, k)
    requires wakes[k].ready.inbound.None? && wakes[k].ready.mail.None? && !wakes[k].ready.tick
    ensures Turns(cfg, me, start, wakes[..k + 1]) == Turns(cfg, me, start, wakes[..k])
  {
    hide Turns, VarsAfter;
    OneMore(cfg, me, start, wakes, k);
  }

  /** The burst allows one message at all, and every window from an earlier valid Send up to `now`
      would with one more still hold no more than the burst and what the refill rate adds. */
  predicate RoomForOne(cfg: Config, start: real, calls: seq<Call>, now: real) {
    && 1.0 <= cfg.burst
    && forall i :: 0 <= i < |calls| ==>
         Spent(cfg.Limits(), start, calls, i) + 1.0 <= cfg.burst + (now - calls[i].at) * cfg.refillPerSec
  }

  lemma AdmittedIfRoom(cfg: Config, me: Str, start: real, trace: seq<Beat>, now: real)
    requires cfg.Valid() && InOrder(start, trace, now)
    ensures Admits(cfg.Limits(), VarsAfter(cfg, me, start, trace).bucket, Call(now, 1.0))
       <==> RoomForOne(cfg, start, Calls(trace), now)
  {
    hide VarsAfter, Admits, Spent, Calls, Ordered;
    BucketIsHistory(cfg, me, start, trace, now);
    AdmissionIsExact(cfg.Limits(), start, Calls(trace), Call(now, 1.0));
  }

  /** What a Send does. A body that is not of 1 to 4096 bytes is answered with an Error and the loop
      goes on. Any other is broadcast, unchanged and signed, if and only if there is room for one
      more message, and else answered with an Error. Only a broken write ends the loop. */
  lemma SendIsAnswered(cfg: Config, me: Str, start: real, wakes: seq<Wake>, k: nat, body: Str)
    requires cfg.Valid() && IsName(me) && |body| <= 8192 && Going(cfg, me, start, wakes, k)
    requires Timely(start, wakes[..k], wakes[k].at) && wakes[k].ready.inbound == Some(Frame(Send(body)))
    ensures var o, n := Turns(cfg, me, start, wakes[..k]), Turns(cfg, me, start, wakes[..k + 1]);
            var after := if wakes[k].fate.Completes? then Running else Faulted;
            if !(1 <= |body| <= 4096) then
              exists reason: Str :: Only(o, n, after, Reached(WireOf(Error(reason)), wakes[k].fate))
            else if RoomForOne(cfg, start, Calls(o.trace), wakes[k].at) then
              && n.exit.Running? && n.wire == o.wire
              && n.broadcasts == o.broadcasts + [WireOf(Message(me, body))]
            else
              Only(o, n, after, Reached(WireOf(Error(Ascii("rate limit exceeded; slow down"))), wakes[k].fate))
  {
    hide Turns, VarsAfter, WireOf, Reached, Fits, Consume, Admits, Calls, InOrder, Timely, IsName, Describe,
      RoomForOne, Select;
    OneMore(cfg, me, start, wakes, k);
    ReadingComesNext(wakes[k].ready);
    var o := Turns(cfg, me, start, wakes[..k]);
    TurnsInOrder(cfg, me, start, wakes[..k], wakes[k].at);
    AdmittedIfRoom(cfg, me, start, o.trace, wakes[k].at);
    AnswersFit(me, body);
    assert o.broadcasts + [] == o.broadcasts && o.wire + [] == o.wire;
    if !(1 <= |body| <= 4096) {
      var reason, n := Describe(ValidateBody(body).value), Turns(cfg, me, start, wakes[..k + 1]);
      var after := if wakes[k].fate.Completes? then Running else Faulted;
      assert Only(o, n, after, Reached(WireOf(Error(reason)), wakes[k].fate));
    }
  }

  lemma ReadingComesNext(r: Ready)
    requires !r.cancelled && r.inbound.Some?
    ensures Select(r) == Some(OnRead(r.inbound.value))
  {
  }

  lemma AnswersFit(me: Str, body: Str)
    requires IsName(me) && |body| <= 8192
    ensures ValidateBody(body).Some? ==> Fits(Error(Describe(ValidateBody(body).value)))
    ensures ValidateBody(body).None? ==> Fits(Message(me, body))
    ensures Fits(Error(Ascii("rate limit exceeded; slow down")))
  {
    hide Fits, Describe, IsName, ValidateUsername;
    NamesAreValid(me);
    if ValidateBody(body).Some? {
      BodyErrorIsSmall(body);
      SmallFits(Error(Describe(ValidateBody(body).value)));
    } else {
      SmallFits(Message(me, body));
    }
    SmallFits(Error(Ascii("rate limit exceeded; slow down")));
  }
}
