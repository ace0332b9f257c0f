/** The accept loop of the server machine is the loop of ServeObject (server/src/lib.rs). */
module ServerRefinesServe {
  import opened Wrappers
  import opened SessionLoop
  import opened ServerMachine
  import opened ServerSafety
  import Accept = ServeObject

  function Connections(evs: seq<Event>): nat {
    if evs == [] then 0 else Connections(evs[..|evs| - 1]) + (if evs[|evs| - 1].AcceptReady? then 1 else 0)
  }

  /** What the select of the accept loop met in a run. The `n`-th to connect is peer `n`; whatever
      was `waiting` when the shutdown was seen makes no difference. */
  function PollsIn(evs: seq<Event>, waiting: Option<Accept.Acceptance>): seq<Accept.AcceptPoll> {
    if evs == [] then []
    else
      var front, last := evs[..|evs| - 1], evs[|evs| - 1];
      match last
      case AcceptReady =>
        PollsIn(front, waiting) + [Accept.AcceptPoll(false, Some(Accept.Connected(Connections(front))))]
      case AcceptError => PollsIn(front, waiting) + [Accept.AcceptPoll(false, Some(Accept.Failed))]
      case StopListening => PollsIn(front, waiting) + [Accept.AcceptPoll(true, waiting)]
      case _ => PollsIn(front, waiting)
  }

  /** The sessions that have been accepted, the one about to be spawned included. */
  function SessionsOf(w: World): seq<Accept.Peer> {
    seq(|w.locals| + (if w.server.Spawning? then 1 else 0), i => i)
  }

  function PhaseOf(s: ServerPc): Accept.Phase {
    match s
    case Listening => Accept.Listening
    case Spawning => Accept.Listening
    case Draining(failed) => if failed then Accept.Broken else Accept.Stopped
    case Returned(failed) => if failed then Accept.Broken else Accept.Stopped
  }

  lemma FirstEndPush(polls: seq<Accept.AcceptPoll>, p: Accept.AcceptPoll)
    requires Accept.FirstEnd(polls) == |polls|
    ensures Accept.FirstEnd(polls + [p]) == if Accept.Ends(p) then |polls| else |polls| + 1
  {
    var all := polls + [p];
    var n := Accept.FirstEnd(all);
    assert forall i :: 0 <= i < |polls| ==> all[i] == polls[i];
    assert !(n < |polls|);
    assert all[|polls|] == p;
  }

  lemma PeersPush(polls: seq<Accept.AcceptPoll>, p: Accept.AcceptPoll)
    ensures Accept.Peers(polls + [p])
         == Accept.Peers(polls)
            + (if p.accept.Some? && p.accept.value.Connected? then [p.accept.value.peer] else [])
  {
    assert (polls + [p])[..|polls|] == polls;
  }

  /** How a step moves the accept loop. */
  lemma AcceptStep(w: World, ev: Event)
    requires Enabled(w, ev)
    ensures var k := Next(w, ev);
            if ev.AcceptReady? then w.server.Listening? && k.server.Spawning? && k.locals == w.locals
            else if ev.Spawn? then w.server.Spawning? && k.server.Listening? && |k.locals| == |w.locals| + 1
            else if ev.AcceptError? then w.server.Listening? && k.server == Draining(true) && k.locals == w.locals
            else if ev.StopListening? then w.server.Listening? && k.server == Draining(false) && k.locals == w.locals
            else if ev.Return? then w.server.Draining? && k.server == Returned(w.server.failed) && k.locals == w.locals
            else k.server == w.server && |k.locals| == |w.locals|
  {
    if IsSession(ev) {
      hide Enabled, Next, HubAfter, Moved;
      NextIs(w, ev);
    }
  }

  /** The server stands where the loop stands after `polls`, with the same `n` sessions. */
  predicate Agrees(w: World, polls: seq<Accept.AcceptPoll>, n: nat) {
    && SessionsOf(w) == Accept.Peers(polls[..Accept.FirstEnd(polls)]) && |SessionsOf(w)| == n
    && PhaseOf(w.server) == Accept.PhaseAfter(polls)
    && |polls| <= Accept.FirstEnd(polls) + 1
  }

  lemma NothingMet(w: World, k: World, polls: seq<Accept.AcceptPoll>, n: nat)
    requires Agrees(w, polls, n)
    requires PhaseOf(k.server) == PhaseOf(w.server) && |SessionsOf(k)| == |SessionsOf(w)|
    ensures Agrees(k, polls, n)
  {
    hide Accept.Peers, Accept.FirstEnd;
    assert SessionsOf(k) == SessionsOf(w);
  }

  lemma Listens(w: World, polls: seq<Accept.AcceptPoll>, n: nat)
    requires Agrees(w, polls, n) && w.server.Listening?
    ensures Accept.FirstEnd(polls) == |polls| && SessionsOf(w) == Accept.Peers(polls) && n == |w.locals|
  {
    hide Accept.Peers;
    assert polls[..|polls|] == polls;
  }

  lemma PollMet(w: World, k: World, polls: seq<Accept.AcceptPoll>, p: Accept.AcceptPoll, n: nat)
    requires Agrees(w, polls, n) && w.server.Listening? && k.locals == w.locals
    requires if p == Accept.AcceptPoll(false, Some(Accept.Connected(n))) then k.server.Spawning?
             else if p == Accept.AcceptPoll(false, Some(Accept.Failed)) then k.server == Draining(true)
             else p.cancelled && k.server == Draining(false)
    ensures Agrees(k, polls + [p], if k.server.Spawning? then n + 1 else n)
  {
    hide Accept.Peers, Accept.FirstEnd;
    Listens(w, polls, n);
    FirstEndPush(polls, p);
    PeersPush(polls, p);
    var all := polls + [p];
    assert all[..|polls|] == polls && all[..|all|] == all && all[|polls|] == p;
    assert SessionsOf(k) == if k.server.Spawning? then SessionsOf(w) + [n] else SessionsOf(w);
  }

  /** Every run of the server machine accepts as the loop does: its sessions are exactly the peers
      the loop spawns from the same polls, in order, and it stands where the loop stands. */
  lemma {:induction false} AcceptLoopIsServe(cfg: Config, now: real, evs: seq<Event>,
                                             waiting: Option<Accept.Acceptance>)
    requires ValidRun(Init(cfg, now), evs)
    ensures Agrees(Run(Init(cfg, now), evs), PollsIn(evs, waiting), Connections(evs))
    decreases |evs|
  {
    hide Enabled, Next, Agrees, PhaseOf;
    if evs == [] {
      NothingYet(cfg, now);
    } else {
      var front, last := evs[..|evs| - 1], evs[|evs| - 1];
      AcceptLoopIsServe(cfg, now, front, waiting);
      var w := Run(Init(cfg, now), front);
      AcceptStep(w, last);
      if last.AcceptReady? || last.AcceptError? || last.StopListening? {
        var polls := PollsIn(front, waiting);
        PollMet(w, Next(w, last), polls, PollsIn(evs, waiting)[|polls|], Connections(front));
      } else {
        SamePhase(w, Next(w, last));
        NothingMet(w, Next(w, last), PollsIn(front, waiting), Connections(front));
      }
    }
  }

  lemma NothingYet(cfg: Config, now: real)
    ensures Agrees(Init(cfg, now), [], 0)
  {
  }

  lemma SamePhase(w: World, k: World)
    requires || (w.server.Spawning? && k.server.Listening? && |k.locals| == |w.locals| + 1)
             || (w.server.Draining? && k.server == Returned(w.server.failed) && k.locals == w.locals)
             || (k.server == w.server && |k.locals| == |w.locals|)
    ensures PhaseOf(k.server) == PhaseOf(w.server) && |SessionsOf(k)| == |SessionsOf(w)|
  {
  }
}
