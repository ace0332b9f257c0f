/** The accept loop and the drain that follows it (server/src/lib.rs). */
module ServeObject {
  import opened Wrappers

  type Peer = nat

  datatype Acceptance = Connected(peer: Peer) | Failed

  /** What one select of the accept loop meets. */
  datatype AcceptPoll = AcceptPoll(cancelled: bool, accept: Option<Acceptance>)

  datatype Phase = Listening | Stopped | Broken

  /** The select is biased: shutdown before a connection, however many are waiting. */
  predicate Ends(p: AcceptPoll) { p.cancelled || p.accept == Some(Failed) }

  function FirstEnd(polls: seq<AcceptPoll>): (n: nat)
    ensures n <= |polls| && (n < |polls| ==> Ends(polls[n]))
    ensures forall i :: 0 <= i < n ==> !Ends(polls[i])
  {
    if polls == [] || Ends(polls[0]) then 0 else 1 + FirstEnd(polls[1..])
  }

  /** Who connected in these polls, in order. */
  function Peers(polls: seq<AcceptPoll>): seq<Peer> {
    if polls == [] then []
    else
      var before, p := Peers(polls[..|polls| - 1]), polls[|polls| - 1];
      if p.accept.Some? && p.accept.value.Connected? then before + [p.accept.value.peer] else before
  }

  /** How the loop is left: by shutdown, or by a failed accept before any shutdown was seen. */
  function PhaseAfter(polls: seq<AcceptPoll>): Phase {
    var n := FirstEnd(polls);
    if n == |polls| then Listening else if polls[n].cancelled then Stopped else Broken
  }

  /** The loop is left by the first poll that meets a shutdown or a failed accept, and a shutdown wins
      whatever else that poll meets. */
  lemma LeftAtFirst(polls: seq<AcceptPoll>, k: nat)
    requires k <= |polls|
    requires forall i :: 0 <= i < k ==> !polls[i].cancelled && polls[i].accept != Some(Failed)
    requires k < |polls| ==> polls[k].cancelled || polls[k].accept == Some(Failed)
    ensures FirstEnd(polls) == k
    ensures PhaseAfter(polls) == if k == |polls| then Listening else if polls[k].cancelled then Stopped else Broken
  {
    var n := FirstEnd(polls);
    assert !(n < k) && !(k < n);
  }

  lemma LeftSomewhere(polls: seq<AcceptPoll>)
    ensures forall k ::
      && 0 <= k < |polls| && (polls[k].cancelled || polls[k].accept == Some(Failed))
      && (forall i :: 0 <= i < k ==> !polls[i].cancelled && polls[i].accept != Some(Failed)) ==>
        PhaseAfter(polls) == (if polls[k].cancelled then Stopped else Broken) && FirstEnd(polls) == k
  {
    forall k |
      && 0 <= k < |polls| && (polls[k].cancelled || polls[k].accept == Some(Failed))
      && (forall i :: 0 <= i < k ==> !polls[i].cancelled && polls[i].accept != Some(Failed))
      ensures PhaseAfter(polls) == (if polls[k].cancelled then Stopped else Broken) && FirstEnd(polls) == k
    {
      LeftAtFirst(polls, k);
    }
  }

  class JoinSet {
    var tasks: seq<Peer>

    constructor ()
      ensures tasks == []
    {
      tasks := [];
    }

    method Spawn(t: Peer)
      modifies this
      ensures tasks == old(tasks) + [t]
    {
      tasks := tasks + [t];
    }

    /** The `k`-th task is the next to end; nothing is left to join only when no task is left. */
    method JoinNext(k: nat) returns (r: Option<Peer>)
      modifies this
      ensures r.None? <==> old(tasks) == []
      ensures r.None? ==> tasks == []
      ensures r.Some? ==>
        |tasks| == |old(tasks)| - 1 && multiset(old(tasks)) == multiset(tasks) + multiset{r.value}
    {
      if tasks == [] {
        return None;
      }
      var i := k % |tasks|;
      r := Some(tasks[i]);
      RemovedOne(tasks, i);
      tasks := tasks[..i] + tasks[i + 1..];
    }
  }

  lemma RemovedOne(s: seq<Peer>, i: nat)
    requires i < |s|
    ensures multiset(s) == multiset(s[..i] + s[i + 1..]) + multiset{s[i]}
  {
    assert s == s[..i] + [s[i]] + s[i + 1..];
  }

  /** One session per connection accepted before the first shutdown or failed accept, none after;
      and once the loop is left, every session joined exactly once before the result is returned. */
  method Serve(polls: seq<AcceptPoll>, order: nat -> nat) returns (phase: Phase, spawned: seq<Peer>, joined: seq<Peer>)
    ensures phase == PhaseAfter(polls) && spawned == Peers(polls[..FirstEnd(polls)])
    ensures forall k ::
      && 0 <= k < |polls| && (polls[k].cancelled || polls[k].accept == Some(Failed))
      && (forall i :: 0 <= i < k ==> !polls[i].cancelled && polls[i].accept != Some(Failed)) ==>
        phase == (if polls[k].cancelled then Stopped else Broken) && spawned == Peers(polls[..k])
    ensures if phase.Listening? then joined == [] else multiset(joined) == multiset(spawned)
  {
    var sessions := new JoinSet();
    var i := 0;
    phase := Listening;
    while i < |polls| && phase.Listening?
      invariant i <= |polls| && fresh(sessions)
      invariant phase.Listening? ==> i <= FirstEnd(polls) && sessions.tasks == Peers(polls[..i])
      invariant !phase.Listening? ==>
        FirstEnd(polls) < |polls| && phase == PhaseAfter(polls) && sessions.tasks == Peers(polls[..FirstEnd(polls)])
    {
      var p := polls[i];
      if p.cancelled {
        phase := Stopped;
      } else if p.accept.Some? {
        match p.accept.value
        case Failed => phase := Broken;
        case Connected(peer) => sessions.Spawn(peer);
      }
      assert polls[..i + 1][..i] == polls[..i];
      i := i + 1;
    }
    spawned, joined := sessions.tasks, [];
    LeftSomewhere(polls);
    if phase.Listening? {
      return;
    }
    var more := true;
    while more
      invariant fresh(sessions) && multiset(joined) + multiset(sessions.tasks) == multiset(spawned)
      invariant !more ==> sessions.tasks == []
      decreases |sessions.tasks|, more
    {
      var ended := sessions.JoinNext(order(|sessions.tasks|));
      match ended
      case None => more := false;
      case Some(t) => joined := joined + [t];
    }
  }

  /** What happens after the loop is left changes nothing. */
  lemma LateConnectionsIgnored(polls: seq<AcceptPoll>, later: seq<AcceptPoll>)
    requires !PhaseAfter(polls).Listening?
    ensures FirstEnd(polls + later) == FirstEnd(polls) && PhaseAfter(polls + later) == PhaseAfter(polls)
    ensures Peers((polls + later)[..FirstEnd(polls + later)]) == Peers(polls[..FirstEnd(polls)])
  {
    var n, m := FirstEnd(polls), FirstEnd(polls + later);
    assert forall i :: 0 <= i < |polls| ==> (polls + later)[i] == polls[i];
    assert !(m < n) && !(n < m);
    assert (polls + later)[..n] == polls[..n];
  }
}
