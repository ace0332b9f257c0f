/** What each session keeps, step by step: its place in the hub, what it has written and read,
    and the turns of its loop. */
module ServerSessions {
  import opened Wrappers
  import opened Utf8
  import opened Frames
  import opened TokenBucket
  import opened SessionLoop
  import opened SessionTrace
  import opened ServerMachine
  import Hub = HubMachine

  // ----- the session's program and its stage in the hub -----

  predicate Linked(pc: Pc, st: Hub.Stage) {
    match pc
    case AwaitHello => st.Idle?
    case Refusing(_) => st.Idle? || st.Gone?
    case Registering => st.Registering?
    case Counting => st.Inserted?
    case Reading => st.Silent?
    case Greeting(_) => st.Silent?
    case Announcing => st.Silent? || st.Joining?
    case Selecting => st.Open?
    case Handling(_) => st.Open?
    case Replying(_, _, _) => st.Open?
    case Relaying => st.Messaging?
    case Leaving => st.Open? || st.Departing?
    case Releasing => st.Releasing?
    case Uncounting => st.Removed?
    case Dropping => st.Closing?
    case Ended => st.Idle? || st.Gone?
  }

  // ----- what has been read -----

  predicate ReadOk(l: Local) {
    && l.nread <= |l.arrived|
    && (forall i :: 0 <= i < |l.arrived| && l.arrived[i].Frame? ==> FromWire(l.arrived[i].frame))
    && (l.pc.Handling? && l.pc.arm.OnRead? ==> l.nread > 0 && l.arrived[l.nread - 1] == l.pc.arm.inbound)
  }

  // ----- what has been written -----

  predicate Ordinary(f: ServerFrame) { !f.Welcome? && !f.Rejected? && Fits(f) }

  /** Welcome first, then only frames of the loop. */
  predicate Welcomed(wire: seq<Sent>) {
    |wire| > 0 && wire[0].frame.Welcome? && !wire[0].mail && Fits(wire[0].frame)
    && forall i :: 0 < i < |wire| ==> Ordinary(wire[i].frame)
  }

  predicate TornOk(t: Torn) { Fits(t.frame) && t.bytes < 4 + |ServerPayload(t.frame)| }

  predicate WireOk(l: Local) {
    && (l.torn.Some? ==> TornOk(l.torn.value))
    && match l.pc
       case AwaitHello => l.wire == [] && l.torn.None?
       case Registering => l.wire == [] && l.torn.None?
       case Counting => l.wire == [] && l.torn.None?
       case Reading => l.wire == [] && l.torn.None?
       case Refusing(f) => l.wire == [] && l.torn.None? && f.Rejected? && Fits(f)
       case Greeting(f) => l.wire == [] && l.torn.None? && f.Welcome? && Fits(f)
       case Announcing => Welcomed(l.wire) && l.torn.None?
       case Selecting => Welcomed(l.wire) && l.torn.None?
       case Relaying => Welcomed(l.wire) && l.torn.None?
       case Handling(arm) =>
         Welcomed(l.wire) && l.torn.None? && (arm.OnMail? && arm.frame.Some? ==> Ordinary(arm.frame.value))
       case Replying(f, _, _) => Welcomed(l.wire) && l.torn.None? && Ordinary(f)
       case Leaving => Welcomed(l.wire)
       case Ended =>
         || l.wire == [] || Welcomed(l.wire)
         || (|l.wire| == 1 && l.wire[0].frame.Rejected? && Fits(l.wire[0].frame) && l.torn.None?)
       case _ => Welcomed(l.wire) || (l.wire == [] && l.torn.Some?)
  }

  // ----- what has come out of the mailbox -----

  function MailPart(wire: seq<Sent>): seq<ServerFrame> {
    if wire == [] then []
    else
      var last := wire[|wire| - 1];
      MailPart(wire[..|wire| - 1]) + (if last.mail then [last.frame] else [])
  }

  /** A frame taken from the mailbox and not written whole. */
  function InFlight(l: Local): seq<ServerFrame> {
    if l.pc.Handling? && l.pc.arm.OnMail? && l.pc.arm.frame.Some? then [l.pc.arm.frame.value]
    else if l.pc.Replying? && l.pc.mail then [l.pc.frame]
    else if l.torn.Some? && l.torn.value.mail then [l.torn.value.frame]
    else []
  }

  function FramesOf(items: seq<Hub.Item>): seq<ServerFrame> {
    seq(|items|, i requires 0 <= i < |items| => items[i].frame)
  }

  predicate MailOk(l: Local, m: Hub.Mailbox) {
    m.taken <= |m.enq| && MailPart(l.wire) + InFlight(l) == FramesOf(m.enq[..m.taken])
  }

  // ----- the turns of the loop -----

  predicate TraceOk(cfg: Config, me: Str, l: Local, now: real) {
    match l.pc
    case Selecting => InOrder(l.start, l.trace, now) && Alive(cfg, me, l.start, l.trace)
    case Handling(_) => InOrder(l.start, l.trace, now) && Alive(cfg, me, l.start, l.trace)
    case Relaying => InOrder(l.start, l.trace, now) && Alive(cfg, me, l.start, l.trace)
    case Replying(_, _, last) => InOrder(l.start, l.trace, now) && (!last ==> Alive(cfg, me, l.start, l.trace))
    case Leaving => InOrder(l.start, l.trace, now)
    case Releasing => l.trace == [] || InOrder(l.start, l.trace, now)
    case Uncounting => l.trace == [] || InOrder(l.start, l.trace, now)
    case Dropping => l.trace == [] || InOrder(l.start, l.trace, now)
    case Ended => l.trace == [] || InOrder(l.start, l.trace, now)
    case _ => l.trace == []
  }

  // ----- steps of the session itself -----

  predicate LocalOk(l: Local) { ReadOk(l) && WireOk(l) }

  lemma HelloKeeps(l: Local)
    requires LocalOk(l) && l.pc.AwaitHello? && l.nread < |l.arrived|
    ensures LocalOk(AfterHello(l))
  {
    if l.arrived[l.nread].Frame? { HandshakeFits(l.arrived[l.nread].frame, 0); }
  }

  lemma WelcomedGrows(wire: seq<Sent>, x: Sent)
    requires Welcomed(wire) && Ordinary(x.frame)
    ensures Welcomed(wire + [x])
  {
  }

  lemma WriteKeeps(l: Local)
    requires LocalOk(l) && Writing(l.pc).Some?
    ensures LocalOk(AfterWrite(l))
  {
    var t := Writing(l.pc).value;
    if l.pc.Replying? { WelcomedGrows(l.wire, Sent(t.frame, t.mail)); }
  }

  lemma FailureKeeps(l: Local, bytes: nat)
    requires LocalOk(l) && Writing(l.pc).Some? && bytes < 4 + |ServerPayload(Writing(l.pc).value.frame)|
    ensures LocalOk(AfterFailure(l, bytes))
  {
  }

  lemma ArrivalKeeps(l: Local, x: Inbound)
    requires LocalOk(l) && (x.Frame? ==> FromWire(x.frame))
    ensures LocalOk(l.(arrived := l.arrived + [x]))
  {
  }

  lemma PollKeeps(l: Local, arm: Arm)
    requires LocalOk(l) && l.pc.Selecting?
    requires arm.OnRead? ==> NextInbound(l) == Some(arm.inbound)
    requires arm.OnMail? && arm.frame.Some? ==> Ordinary(arm.frame.value)
    ensures LocalOk(AfterPoll(l, arm))
  {
  }

  lemma ReactionIsOrdinary(cfg: Config, me: Str, v: Vars, now: real, arm: Arm)
    requires ValidName(me)
    requires arm.OnRead? && arm.inbound.Frame? ==> FromWire(arm.inbound.frame)
    requires arm.OnMail? && arm.frame.Some? ==> Ordinary(arm.frame.value)
    ensures var r := React(cfg, me, v, now, arm).1; r.Write? ==> Ordinary(r.frame)
  {
    hide Fits, Consume, Admits;
    ReactionFits(cfg, me, v, now, arm);
  }

  lemma HandlingKeeps(cfg: Config, me: Str, l: Local, now: real)
    requires LocalOk(l) && l.pc.Handling? && ValidName(me)
    ensures LocalOk(AfterHandling(l, now, React(cfg, me, VarsAfter(cfg, me, l.start, l.trace), now, l.pc.arm).1))
  {
    hide React, Ordinary, VarsAfter, ValidateUsername;
    var v := VarsAfter(cfg, me, l.start, l.trace);
    ReactionIsOrdinary(cfg, me, v, now, l.pc.arm);
  }

  // ----- mail -----

  lemma MailPartPush(wire: seq<Sent>, x: Sent)
    ensures MailPart(wire + [x]) == MailPart(wire) + (if x.mail then [x.frame] else [])
  {
    assert (wire + [x])[..|wire|] == wire;
  }

  lemma WriteMail(l: Local, m: Hub.Mailbox)
    requires WireOk(l) && MailOk(l, m) && Writing(l.pc).Some?
    ensures MailOk(AfterWrite(l), m)
  {
    var t := Writing(l.pc).value;
    MailPartPush(l.wire, Sent(t.frame, t.mail));
    hide Welcomed, Fits, Ordinary;
  }

  lemma FailureMail(l: Local, m: Hub.Mailbox, bytes: nat)
    requires WireOk(l) && MailOk(l, m) && Writing(l.pc).Some?
    ensures MailOk(AfterFailure(l, bytes), m)
  {
    hide Welcomed, Fits, Ordinary;
  }

  lemma TakeMail(l: Local, m: Hub.Mailbox)
    requires WireOk(l) && MailOk(l, m) && l.pc.Selecting? && m.taken < |m.enq|
    ensures MailOk(AfterPoll(l, OnMail(Some(m.enq[m.taken].frame))), m.(taken := m.taken + 1))
  {
    hide Welcomed, Fits, Ordinary, MailPart;
    assert m.enq[..m.taken + 1] == m.enq[..m.taken] + [m.enq[m.taken]];
    assert FramesOf(m.enq[..m.taken + 1]) == FramesOf(m.enq[..m.taken]) + [m.enq[m.taken].frame];
  }

  lemma PollMail(l: Local, m: Hub.Mailbox, arm: Arm)
    requires WireOk(l) && MailOk(l, m) && l.pc.Selecting? && !(arm.OnMail? && arm.frame.Some?)
    ensures MailOk(AfterPoll(l, arm), m)
  {
  }

  lemma HandlingMail(cfg: Config, me: Str, l: Local, m: Hub.Mailbox, now: real)
    requires WireOk(l) && MailOk(l, m) && l.pc.Handling?
    ensures MailOk(AfterHandling(l, now, React(cfg, me, VarsAfter(cfg, me, l.start, l.trace), now, l.pc.arm).1), m)
  {
    hide Welcomed, Fits, Ordinary, Consume, Admits, ValidateBody;
  }

  /** What others offer does not touch what has been taken. */
  lemma OfferMail(l: Local, m: Hub.Mailbox, x: Hub.Item)
    requires MailOk(l, m)
    ensures MailOk(l, Hub.Offer(m, x))
  {
    assert (m.enq + [x])[..m.taken] == m.enq[..m.taken];
  }

  // ----- turns -----

  lemma HandlingTrace(cfg: Config, me: Str, l: Local, now: real)
    requires l.pc.Handling? && TraceOk(cfg, me, l, now)
    ensures var r := React(cfg, me, VarsAfter(cfg, me, l.start, l.trace), now, l.pc.arm).1;
            TraceOk(cfg, me, AfterHandling(l, now, r), now)
  {
    hide React, VarsAfter, LastReaction;
    TurnAdded(cfg, me, l.start, l.trace, Beat(now, l.pc.arm));
    assert (l.trace + [Beat(now, l.pc.arm)])[..|l.trace|] == l.trace;
  }
}
