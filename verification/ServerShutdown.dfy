/** Cancellation: every run of the server then comes to an end, and leaves nothing behind
    (server/src/lib.rs). Writes are assumed to complete or fail; they are never retried. */
module ServerShutdown {
  import opened Wrappers
  import opened Frames
  import opened SessionLoop
  import opened ServerMachine
  import opened ServerSessions
  import opened ServerSafety
  import opened ServerMessages
  import opened ServerTheorems
  import Hub = HubMachine
  import HubRegistry
  import HubBroadcasts
  import HubSafety

  /** What only the environment does. */
  predicate FromOutside(ev: Event) { ev.Advance? || ev.Arrive? || ev.Hangup? || ev.Cancel? }

  // ----- the measure -----

  /** How far a session is from its end once the server has been cancelled. */
  function Rank(pc: Pc, st: Hub.Stage): nat {
    match pc
    case AwaitHello => 20
    case Registering => 19
    case Counting => 18
    case Reading => 17
    case Greeting(_) => 16
    case Announcing => if st.Silent? then 15 else 14
    case Handling(arm) => if arm.OnShutdown? then 9 else 13
    case Relaying => 12
    case Replying(_, _, last) => if last then 8 else 12
    case Selecting => 10
    case Leaving => if st.Open? then 7 else 6
    case Releasing => 5
    case Uncounting => 4
    case Dropping => 3
    case Refusing(_) => 1
    case Ended => 0
  }

  /** Entries a broadcast in progress may still visit, when `n` sessions exist. */
  function Unseen(st: Hub.Stage, n: nat): nat {
    if Hub.Casting(st) && |st.it.seen| <= n then n + 1 - |st.it.seen| else 0
  }

  function Weight(pc: Pc, st: Hub.Stage, n: nat): nat { Rank(pc, st) * (n + 2) + Unseen(st, n) }

  /** The sum of the sessions' weights. */
  function Total(locals: seq<Local>, actors: seq<Hub.Actor>, n: nat): nat
    requires |locals| == |actors|
  {
    if locals == [] then 0
    else
      var k := |locals| - 1;
      Total(locals[..k], actors[..k], n) + Weight(locals[k].pc, actors[k].stage, n)
  }

  function ServerRank(s: ServerPc): nat {
    match s
    case Spawning => 3
    case Listening => 2
    case Draining(_) => 1
    case Returned(_) => 0
  }

  /** How many sessions there will be: an accepted connection is spawned even after cancellation. */
  function Expected(w: World): nat { |w.locals| + (if w.server.Spawning? then 1 else 0) }

  /** The steps left once the server has been cancelled, at most. */
  function Budget(w: World): nat
    requires |w.locals| == |w.hub.actors|
  {
    Total(w.locals, w.hub.actors, Expected(w))
    + (if w.server.Spawning? then Weight(AwaitHello, Hub.Idle, Expected(w)) else 0)
    + ServerRank(w.server)
  }

  lemma {:induction false} TotalSet(ls: seq<Local>, xs: seq<Hub.Actor>, ks: seq<Local>, ys: seq<Hub.Actor>, s: nat,
                                    n: nat)
    requires |ls| == |xs| == |ks| == |ys| && s < |ls|
    requires forall r :: 0 <= r < |ls| && r != s ==> ks[r].pc == ls[r].pc && ys[r].stage == xs[r].stage
    ensures Total(ks, ys, n) + Weight(ls[s].pc, xs[s].stage, n) == Total(ls, xs, n) + Weight(ks[s].pc, ys[s].stage, n)
    decreases |ls|
  {
    hide Weight;
    var k := |ls| - 1;
    if s == k {
      TotalSame(ls[..k], xs[..k], ks[..k], ys[..k], n);
    } else {
      TotalSet(ls[..k], xs[..k], ks[..k], ys[..k], s, n);
    }
  }

  lemma {:induction false} TotalSame(ls: seq<Local>, xs: seq<Hub.Actor>, ks: seq<Local>, ys: seq<Hub.Actor>, n: nat)
    requires |ls| == |xs| == |ks| == |ys|
    requires forall r :: 0 <= r < |ls| ==> ks[r].pc == ls[r].pc && ys[r].stage == xs[r].stage
    ensures Total(ks, ys, n) == Total(ls, xs, n)
    decreases |ls|
  {
    hide Weight;
    var k := |ls| - 1;
    if ls != [] { TotalSame(ls[..k], xs[..k], ks[..k], ys[..k], n); }
  }

  // ----- no broadcast sees more entries than there are sessions -----

  lemma {:induction false} RangeSize(s: set<nat>, n: nat)
    requires forall x :: x in s ==> x < n
    ensures |s| <= n
    decreases n
  {
    if n > 0 {
      RangeSize(s - {n - 1}, n - 1);
      if n - 1 in s { assert |s - {n - 1}| == |s| - 1; } else { assert s - {n - 1} == s; }
    } else {
      assert s == {};
    }
  }

  function Addresses(claims: seq<Hub.Entry>): set<nat> { set i | 0 <= i < |claims| :: claims[i].addr }

  lemma {:induction false} DistinctAddresses(claims: seq<Hub.Entry>)
    requires forall i, j :: 0 <= i < j < |claims| ==> claims[i].addr != claims[j].addr
    ensures |Addresses(claims)| == |claims|
    decreases |claims|
  {
    if claims != [] {
      var k := |claims| - 1;
      DistinctAddresses(claims[..k]);
      var front := Addresses(claims[..k]);
      assert claims[k].addr !in front;
      assert forall x :: x in Addresses(claims) ==> x in front + {claims[k].addr};
      forall x | x in front ensures x in Addresses(claims) {
        var i :| 0 <= i < k && claims[..k][i].addr == x;
        assert claims[i].addr == x;
      }
      assert claims[k].addr in Addresses(claims);
      assert Addresses(claims) == front + {claims[k].addr};
    }
  }

  lemma ClaimsFewerThanSessions(h: Hub.Hub)
    requires HubRegistry.RegistryOk(h)
    ensures |h.claims| <= |h.actors|
  {
    forall i, j | 0 <= i < j < |h.claims| ensures h.claims[i].addr != h.claims[j].addr {
      assert h.actors[h.claims[i].addr].claim == Some(i) && h.actors[h.claims[j].addr].claim == Some(j);
    }
    DistinctAddresses(h.claims);
    RangeSize(Addresses(h.claims), |h.actors|);
  }

  lemma SeenBounded(h: Hub.Hub, s: Hub.Sid)
    requires HubRegistry.RegistryOk(h) && HubBroadcasts.ItersOk(h) && Hub.At(h, s) && Hub.Casting(h.actors[s].stage)
    ensures |h.actors[s].stage.it.seen| <= |h.actors|
  {
    ClaimsFewerThanSessions(h);
    assert HubBroadcasts.IterOk(h, s, h.actors[s].stage.it);
    RangeSize(h.actors[s].stage.it.seen, |h.claims|);
  }

  // ----- a session's step -----

  predicate Lighter(l: Local, a: Hub.Actor, k: Local, b: Hub.Actor, n: nat) {
    Weight(k.pc, b.stage, n) < Weight(l.pc, a.stage, n)
  }

  lemma RankDrops(l: Local, a: Hub.Actor, k: Local, b: Hub.Actor, n: nat)
    requires Rank(k.pc, b.stage) < Rank(l.pc, a.stage)
    ensures Lighter(l, a, k, b, n)
  {
    assert Rank(k.pc, b.stage) * (n + 2) + (n + 2) <= Rank(l.pc, a.stage) * (n + 2);
  }

  lemma SeenGrows(l: Local, a: Hub.Actor, b: Hub.Actor, i: nat, n: nat)
    requires Hub.Casting(a.stage) && b.stage == Hub.MarkSeen(a.stage, i)
    requires i !in a.stage.it.seen && |b.stage.it.seen| <= n
    ensures Lighter(l, a, l, b, n)
  {
    assert b.stage.it.seen == a.stage.it.seen + {i};
    assert |b.stage.it.seen| == |a.stage.it.seen| + 1;
    assert Rank(l.pc, b.stage) == Rank(l.pc, a.stage);
  }

  lemma HubParts(h: Hub.Hub)
    requires HubSafety.Inv(h)
    ensures HubRegistry.RegistryOk(h) && HubBroadcasts.ItersOk(h)
  {
  }

  lemma VisitMarks(h: Hub.Hub, s: Hub.Sid, i: nat)
    requires HubSafety.Inv(h) && Hub.Enabled(h, Hub.Visit(s, i))
    ensures var k := Hub.Next(h, Hub.Visit(s, i));
            && Hub.At(k, s) && Hub.Casting(h.actors[s].stage)
            && i !in h.actors[s].stage.it.seen
            && k.actors[s].stage == Hub.MarkSeen(h.actors[s].stage, i)
            && |k.actors[s].stage.it.seen| <= |h.actors|
  {
    hide HubSafety.Inv, HubRegistry.RegistryOk, HubBroadcasts.ItersOk, Hub.Next, Hub.Offer;
    var k := Hub.Next(h, Hub.Visit(s, i));
    HubSafety.InvStep(h, Hub.Visit(s, i));
    HubParts(h);
    HubParts(k);
    HubBroadcasts.VisitDoes(h, s, i);
    SeenBounded(k, s);
  }

  lemma VisitLighter(w: World, s: Hub.Sid, i: nat, n: nat)
    requires Inv(w) && Enabled(w, Visit(s, i)) && At(w, s) && |w.hub.actors| <= n
    ensures Hub.At(HubAfter(w, Visit(s, i)), s) && Moved(w, Visit(s, i)) == w.locals[s]
    ensures Lighter(w.locals[s], w.hub.actors[s], w.locals[s], HubAfter(w, Visit(s, i)).actors[s], n)
  {
    VisitIsHubs(w, s, i);
    hide HubSafety.Inv, Enabled, HubAfter, Moved, Hub.Enabled, Hub.Next, SessionsOk, PubsOrdinary, Lighter;
    VisitMarks(w.hub, s, i);
    SeenGrows(w.locals[s], w.hub.actors[s], HubAfter(w, Visit(s, i)).actors[s], i, n);
  }

  lemma HandlingRank(l: Local, now: real, r: Reaction, st: Hub.Stage)
    requires l.pc.Handling? && (l.pc.arm.OnShutdown? ==> r.Write? && r.last)
    requires st.Open? || r.Broadcast?
    ensures Rank(AfterHandling(l, now, r).pc, st) < Rank(l.pc, Hub.Open)
  {
  }

  lemma HandleLighter(w: World, s: Hub.Sid)
    requires Enabled(w, Handle(s)) && At(w, s) && w.hub.actors[s].stage.Open?
    ensures Hub.At(HubAfter(w, Handle(s)), s)
    ensures Rank(Moved(w, Handle(s)).pc, HubAfter(w, Handle(s)).actors[s].stage)
          < Rank(w.locals[s].pc, w.hub.actors[s].stage)
  {
    HandleMoves(w, s);
    HandleStage(w, s);
    ShutdownIsLast(w, s);
    hide Enabled, HubAfter, Moved, Reacts, Rank, AfterHandling;
    HandlingRank(w.locals[s], w.clock, Reacts(w, s, w.locals[s].pc.arm), HubAfter(w, Handle(s)).actors[s].stage);
  }

  lemma ShutdownIsLast(w: World, s: Hub.Sid)
    requires Named(w, s) && w.locals[s].pc.Handling?
    ensures var r := Reacts(w, s, w.locals[s].pc.arm); w.locals[s].pc.arm.OnShutdown? ==> r.Write? && r.last
  {
  }

  lemma HandleStage(w: World, s: Hub.Sid)
    requires Enabled(w, Handle(s)) && At(w, s)
    ensures Hub.At(HubAfter(w, Handle(s)), s)
    ensures HubAfter(w, Handle(s)).actors[s].stage == w.hub.actors[s].stage
         || Hub.Casting(HubAfter(w, Handle(s)).actors[s].stage)
    ensures !Reacts(w, s, w.locals[s].pc.arm).Broadcast? ==> HubAfter(w, Handle(s)) == w.hub
  {
    hide Reacts, Fits;
  }

  /** Any other step brings the session nearer its end. */
  lemma StageAfter(w: World, ev: Event)
    requires HubRegistry.RegistryOk(w.hub) && Enabled(w, ev) && IsSession(ev) && At(w, ev.s) && !ev.Visit?
    requires Linked(w.locals[ev.s].pc, w.hub.actors[ev.s].stage) && w.cancelled && !FromOutside(ev)
    ensures Hub.At(HubAfter(w, ev), ev.s)
    ensures Rank(Moved(w, ev).pc, HubAfter(w, ev).actors[ev.s].stage)
          < Rank(w.locals[ev.s].pc, w.hub.actors[ev.s].stage)
  {
    hide HubRegistry.RegistryOk, HubAfter, Moved, Rank;
    if ev.Handle? {
      AtSelect(w, ev);
      HandleLighter(w, ev.s);
    } else if ev.Release? {
      ReleaseLighter(w, ev.s);
    } else if ev.Poll? {
      PollLighter(w, ev.s, ev.tick);
    } else if ev.WriteDone? || ev.WriteFail? || ev.CutOff? || ev.EndCast? || ev.BeginJoined? || ev.BeginDeparted? {
      WriteLighter(w, ev);
    } else {
      HandshakeLighter(w, ev);
    }
  }

  lemma AtSelect(w: World, ev: Event)
    requires Enabled(w, ev) && ev.Handle? && At(w, ev.s) && Linked(w.locals[ev.s].pc, w.hub.actors[ev.s].stage)
    ensures w.hub.actors[ev.s].stage.Open?
  {
  }

  lemma ReleaseLighter(w: World, s: Hub.Sid)
    requires HubRegistry.RegistryOk(w.hub) && Enabled(w, Release(s)) && At(w, s)
    ensures Hub.At(HubAfter(w, Release(s)), s)
    ensures Rank(Moved(w, Release(s)).pc, HubAfter(w, Release(s)).actors[s].stage)
          < Rank(w.locals[s].pc, w.hub.actors[s].stage)
  {
    hide HubRegistry.RegistryOk, Enabled, HubAfter, Moved;
    ReleaseEffect(w, s);
  }

  lemma PollLighter(w: World, s: Hub.Sid, tick: bool)
    requires Enabled(w, Poll(s, tick)) && At(w, s) && w.cancelled
    ensures Hub.At(HubAfter(w, Poll(s, tick)), s)
    ensures Rank(Moved(w, Poll(s, tick)).pc, HubAfter(w, Poll(s, tick)).actors[s].stage)
          < Rank(w.locals[s].pc, w.hub.actors[s].stage)
  {
    PollEffect(w, s, tick);
    CancelledPoll(w, s, tick);
    hide Enabled, HubAfter, Moved, Chosen;
  }

  lemma CancelledPoll(w: World, s: Hub.Sid, tick: bool)
    requires Named(w, s) && w.cancelled
    ensures Chosen(w, s, tick) == Some(OnShutdown)
  {
  }

  lemma WriteLighter(w: World, ev: Event)
    requires Enabled(w, ev) && IsSession(ev) && At(w, ev.s)
    requires Linked(w.locals[ev.s].pc, w.hub.actors[ev.s].stage)
    requires ev.WriteDone? || ev.WriteFail? || ev.CutOff? || ev.EndCast? || ev.BeginJoined? || ev.BeginDeparted?
    ensures Hub.At(HubAfter(w, ev), ev.s)
    ensures Rank(Moved(w, ev).pc, HubAfter(w, ev).actors[ev.s].stage)
          < Rank(w.locals[ev.s].pc, w.hub.actors[ev.s].stage)
  {
    hide Fits, Hub.Finished, Reacts, Chosen, WelcomeFrame, AlreadyTaken, Hub.HolderOf, Hub.PresentClaims, AfterHello,
      ServerPayload;
  }

  lemma HandshakeLighter(w: World, ev: Event)
    requires Enabled(w, ev) && IsSession(ev) && At(w, ev.s)
    requires Linked(w.locals[ev.s].pc, w.hub.actors[ev.s].stage) && w.cancelled
    requires ev.HelloShutdown? || ev.HelloTimeout? || ev.HelloRead? || ev.Register? || ev.CountUp? || ev.Greet?
          || ev.CountDown? || ev.Drop?
    ensures Hub.At(HubAfter(w, ev), ev.s)
    ensures Rank(Moved(w, ev).pc, HubAfter(w, ev).actors[ev.s].stage)
          < Rank(w.locals[ev.s].pc, w.hub.actors[ev.s].stage)
  {
    hide Fits, Judge, AlreadyTaken, WelcomeFrame;
  }

  // ----- the whole server -----

  lemma OnlyOneMoves(w: World, ev: Event)
    requires Inv(w) && Enabled(w, ev) && IsSession(ev) && At(w, ev.s)
    ensures |HubAfter(w, ev).actors| == |w.hub.actors|
    ensures forall r :: 0 <= r < |w.hub.actors| && r != ev.s ==>
              HubAfter(w, ev).actors[r].stage == w.hub.actors[r].stage
  {
    hide Inv, Enabled, HubAfter;
    SameNumbers(w);
    NumberKept(w, ev);
    forall r | 0 <= r < |w.hub.actors| && r != ev.s
      ensures HubAfter(w, ev).actors[r].stage == w.hub.actors[r].stage
    {
      OthersKept(w, ev, r);
    }
  }

  lemma LinkedAt(w: World, s: Hub.Sid)
    requires Inv(w) && At(w, s)
    ensures Linked(w.locals[s].pc, w.hub.actors[s].stage)
  {
    hide HubSafety.Inv, PubsOrdinary, Linked, LocalOk, MailOk, TraceOk, ValidateUsername;
    assert SessionOk(w.cfg, w.locals[s], w.hub.actors[s], w.clock);
  }

  lemma SessionLighter(w: World, ev: Event, n: nat)
    requires Inv(w) && w.cancelled && Enabled(w, ev) && IsSession(ev) && !FromOutside(ev) && At(w, ev.s)
    requires |w.hub.actors| <= n
    ensures Hub.At(HubAfter(w, ev), ev.s)
    ensures Lighter(w.locals[ev.s], w.hub.actors[ev.s], Moved(w, ev), HubAfter(w, ev).actors[ev.s], n)
  {
    hide Inv, Enabled, HubAfter, Moved, Lighter, Rank, HubRegistry.RegistryOk;
    HubOwned(w);
    LinkedAt(w, ev.s);
    if ev.Visit? {
      VisitLighter(w, ev.s, ev.i, n);
    } else {
      StageAfter(w, ev);
      RankDrops(w.locals[ev.s], w.hub.actors[ev.s], Moved(w, ev), HubAfter(w, ev).actors[ev.s], n);
    }
  }

  lemma SameNumbers(w: World)
    requires Inv(w)
    ensures |w.locals| == |w.hub.actors|
  {
  }

  lemma SessionSpends(w: World, ev: Event)
    requires Inv(w) && w.cancelled && Enabled(w, ev) && IsSession(ev) && !FromOutside(ev)
    ensures var k := Next(w, ev);
            && |k.locals| == |k.hub.actors| && |w.locals| == |w.hub.actors|
            && Budget(k) < Budget(w)
  {
    hide Inv, Enabled, Next, HubAfter, Moved, Weight, Total;
    NextIs(w, ev);
    SameNumbers(w);
    OnlyOneMoves(w, ev);
    SessionLighter(w, ev, Expected(w));
    var k := Next(w, ev);
    TotalSet(w.locals, w.hub.actors, k.locals, k.hub.actors, ev.s, Expected(w));
  }

  /** The steps of the accept loop that remain after cancellation. */
  lemma AcceptLoopMoves(w: World, ev: Event)
    requires w.cancelled && Enabled(w, ev) && !IsSession(ev) && !FromOutside(ev)
    ensures var k := Next(w, ev);
            if ev.Spawn? then
              && w.server.Spawning? && k.server.Listening?
              && k.locals == w.locals + [Connect(w.clock)] && k.hub.actors == w.hub.actors + [Hub.NEWCOMER]
            else
              && k.locals == w.locals && k.hub == w.hub && ServerRank(k.server) < ServerRank(w.server)
              && !w.server.Spawning? && !k.server.Spawning?
  {
  }

  lemma TotalPush(ls: seq<Local>, xs: seq<Hub.Actor>, l: Local, x: Hub.Actor, n: nat)
    requires |ls| == |xs|
    ensures Total(ls + [l], xs + [x], n) == Total(ls, xs, n) + Weight(l.pc, x.stage, n)
  {
    assert (ls + [l])[..|ls|] == ls && (xs + [x])[..|xs|] == xs;
  }

  lemma ServerSpends(w: World, ev: Event)
    requires Inv(w) && w.cancelled && Enabled(w, ev) && !IsSession(ev) && !FromOutside(ev)
    ensures var k := Next(w, ev);
            && |k.locals| == |k.hub.actors| && |w.locals| == |w.hub.actors|
            && Budget(k) < Budget(w)
  {
    hide HubSafety.Inv, PubsOrdinary, SessionOk, Total, Next, Enabled, Weight;
    AcceptLoopMoves(w, ev);
    if ev.Spawn? {
      TotalPush(w.locals, w.hub.actors, Connect(w.clock), Hub.NEWCOMER, Expected(w));
    }
  }

  lemma OutsideMovesNobody(w: World, ev: Event)
    requires Enabled(w, ev) && FromOutside(ev)
    ensures var k := Next(w, ev);
            && k.hub == w.hub && k.server == w.server && |k.locals| == |w.locals|
            && forall r :: 0 <= r < |w.locals| ==> k.locals[r].pc == w.locals[r].pc
  {
    hide ParseClient;
  }

  lemma OutsideSpendsNothing(w: World, ev: Event)
    requires Inv(w) && Enabled(w, ev) && FromOutside(ev)
    ensures var k := Next(w, ev);
            && |k.locals| == |k.hub.actors| && |w.locals| == |w.hub.actors|
            && Budget(k) == Budget(w)
  {
    hide HubSafety.Inv, SessionOk, PubsOrdinary, Next, Enabled;
    var k := Next(w, ev);
    OutsideMovesNobody(w, ev);
    TotalSame(w.locals, w.hub.actors, k.locals, k.hub.actors, Expected(w));
  }

  lemma StaysCancelled(w: World, ev: Event)
    requires w.cancelled && Enabled(w, ev)
    ensures Next(w, ev).cancelled
  {
    hide LocallyEnabled, HubEvent, Moved, Hub.Next;
  }

  /** Once cancelled, every step of the server's own spends some of its budget, and nothing that
      comes from outside gives any back. */
  lemma BudgetStep(w: World, ev: Event)
    requires Inv(w) && w.cancelled && Enabled(w, ev)
    ensures var k := Next(w, ev);
            && Inv(k) && k.cancelled && |k.locals| == |k.hub.actors| && |w.locals| == |w.hub.actors|
            && (if FromOutside(ev) then Budget(k) == Budget(w) else Budget(k) < Budget(w))
  {
    hide Inv, Enabled, Next, Budget;
    InvStep(w, ev);
    StaysCancelled(w, ev);
    if FromOutside(ev) {
      OutsideSpendsNothing(w, ev);
    } else if IsSession(ev) {
      SessionSpends(w, ev);
    } else {
      ServerSpends(w, ev);
    }
  }

  /** The steps of a run that the accept loop and the sessions take. */
  function ProgramSteps(evs: seq<Event>): nat {
    if evs == [] then 0
    else ProgramSteps(evs[..|evs| - 1]) + (if FromOutside(evs[|evs| - 1]) then 0 else 1)
  }

  lemma {:induction false} RunSpends(w: World, evs: seq<Event>)
    requires Inv(w) && w.cancelled && ValidRun(w, evs)
    ensures var k := Run(w, evs);
            && Inv(k) && k.cancelled && |k.locals| == |k.hub.actors| && |w.locals| == |w.hub.actors|
            && ProgramSteps(evs) + Budget(k) <= Budget(w)
    decreases |evs|
  {
    hide Enabled, Next, Budget, HubSafety.Inv, SessionOk, PubsOrdinary;
    if evs != [] {
      RunSpends(w, evs[..|evs| - 1]);
      BudgetStep(Run(w, evs[..|evs| - 1]), evs[|evs| - 1]);
    }
  }

  /** Shutdown terminates. From the moment of cancellation, wherever the accept loop and the
      sessions are, the server takes at most `Budget(w)` further steps in any run, whatever its
      clients send and however long it lasts; and at every moment of the run what is left of that
      bound still holds. */
  lemma ShutdownTerminates(cfg: Config, w: World, evs: seq<Event>)
    requires Reachable(cfg, w) && w.cancelled && ValidRun(w, evs)
    ensures |w.locals| == |w.hub.actors| && |Run(w, evs).locals| == |Run(w, evs).hub.actors|
    ensures ProgramSteps(evs) + Budget(Run(w, evs)) <= Budget(w)
  {
    ReachableIsSafe(cfg, w);
    hide Reachable;
    RunSpends(w, evs);
  }
}
