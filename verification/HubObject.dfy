/** The hub as one session sees it: an object whose calls, undisturbed, are runs of the step
    machine (server/src/actor/hub.rs, server/src/actor/mailbox.rs). */
module HubObject {
  import opened Wrappers
  import opened Utf8
  import opened Frames
  import opened Codec
  import Machine = HubMachine
  import opened HubRegistry
  import opened HubBroadcasts

  datatype SendResult = Sent | Full | Closed

  /** A bounded mailbox, shared by its owner and the hub. */
  class Channel {
    var queue: seq<Bytes>
    var open: bool
    const capacity: nat

    constructor (capacity: nat)
      ensures queue == [] && open && this.capacity == capacity
    {
      queue := [];
      open := true;
      this.capacity := capacity;
    }

    method TrySend(x: Bytes) returns (r: SendResult)
      modifies this
      ensures open == old(open)
      ensures r == if !open then Closed else if |old(queue)| >= capacity then Full else Sent
      ensures queue == if r == Sent then old(queue) + [x] else old(queue)
    {
      if !open {
        return Closed;
      }
      if |queue| >= capacity {
        return Full;
      }
      queue := queue + [x];
      r := Sent;
    }

    /** The oldest frame, if there is one yet. */
    method Recv() returns (r: Option<Bytes>)
      modifies this
      ensures open == old(open)
      ensures old(queue) == [] ==> r == None && queue == []
      ensures old(queue) != [] ==> r == Some(old(queue)[0]) && queue == old(queue)[1..]
    {
      if queue == [] {
        return None;
      }
      r := Some(queue[0]);
      queue := queue[1..];
    }

    /** The receiver is gone; what was queued is never read. */
    method Close()
      modifies this
      ensures !open && queue == old(queue)
    {
      open := false;
    }

    /** The channel holds what the machine's mailbox has queued and not yet handed over. */
    ghost predicate Matches(m: Machine.Mailbox)
      reads this
    {
      && capacity == Machine.SESSION_QUEUE_DEPTH && open == m.open && m.taken <= |m.enq|
      && queue == Queued(m.enq[m.taken..])
    }
  }

  function Queued(items: seq<Machine.Item>): seq<Bytes> {
    seq(|items|, i requires 0 <= i < |items| => WireOf(items[i].frame))
  }

  datatype SessionHandle = SessionHandle(key: Machine.Key, tx: Channel)

  /** What a successful registration hands back. */
  datatype Claim = Claim(key: Machine.Key, mailbox: Channel)

  ghost function ChannelsOf(sessions: map<Str, SessionHandle>): set<Channel> {
    set n | n in sessions :: sessions[n].tx
  }

  /** The entry under `n` is the machine's, key and mailbox. */
  ghost predicate Stands(h: Machine.Hub, n: Str, e: SessionHandle)
    reads e.tx
  {
    && n in h.registry && h.registry[n] < |h.claims|
    && h.claims[h.registry[n]].key == e.key
    && Machine.At(h, h.claims[h.registry[n]].addr)
    && e.tx.Matches(h.actors[h.claims[h.registry[n]].addr].mail)
  }

  /** The map holds the machine's entries, each with a channel of its own. */
  ghost predicate Reflects(h: Machine.Hub, sessions: map<Str, SessionHandle>)
    reads ChannelsOf(sessions)
  {
    && h.registry.Keys == sessions.Keys
    && (forall n :: n in sessions ==> sessions[n].tx in ChannelsOf(sessions) && Stands(h, n, sessions[n]))
    && Separate(sessions)
  }

  /** No two entries share a channel. */
  ghost predicate Separate(sessions: map<Str, SessionHandle>) {
    forall n, m :: n in sessions && m in sessions && n != m ==> sessions[n].tx != sessions[m].tx
  }

  class Hub {
    var sessions: map<Str, SessionHandle>
    var occupancy: int
    /** How many keys there have been: the allocator's part in a key. */
    var keysMade: nat
    ghost var state: Machine.Hub

    ghost predicate Valid()
      reads this, ChannelsOf(sessions)
    {
      && RegistryOk(state) && Reflects(state, sessions)
      && occupancy == state.occupancy && keysMade == state.nextAlloc
    }

    constructor ()
      ensures Valid() && sessions == map[] && state == Machine.EMPTY_HUB
    {
      sessions := map[];
      occupancy := 0;
      keysMade := 0;
      state := Machine.EMPTY_HUB;
    }

    /** A new session arrives with a name of its own allocation. */
    method NewKey(name: Str) returns (key: Machine.Key, ghost s: Machine.Sid)
      requires Valid()
      modifies this`state, this`keysMade
      ensures Valid()
      ensures key == Machine.Key(name, old(keysMade)) && s == |old(state).actors|
      ensures RunsTo(old(state), [Machine.Spawn, Machine.MakeKey(s, name)], state)
      ensures Machine.Enabled(state, Machine.Insert(s)) && state.actors[s].key == Some(key)
    {
      hide RegistryOk, RunsTo, Stands, Machine.Next, Machine.Enabled, AfterArrival;
      s := |state.actors|;
      key := Machine.Key(name, keysMade);
      ArrivalEffect(state, name);
      ReflectsLonger(state, AfterArrival(state, name), sessions);
      state := AfterArrival(state, name);
      keysMade := keysMade + 1;
    }

    /** Registration is an insertion and an add; a taken name leaves everything as it is. */
    method TryRegister(key: Machine.Key, ghost s: Machine.Sid) returns (r: Option<Claim>)
      requires Valid() && Machine.Enabled(state, Machine.Insert(s)) && state.actors[s].key == Some(key)
      modifies this
      ensures Valid()
      ensures r.Some? <==> key.name !in old(sessions)
      ensures r.Some? ==>
        && r.value.key == key && fresh(r.value.mailbox) && r.value.mailbox.queue == []
        && r.value.mailbox.open && r.value.mailbox.capacity == 256
        && sessions == old(sessions)[key.name := SessionHandle(key, r.value.mailbox)]
        && occupancy == old(occupancy) + 1
        && RunsTo(old(state), [Machine.Insert(s), Machine.Add(s)], state)
        && Machine.At(state, s) && state.actors[s].key == Some(key) && state.actors[s].stage.Silent?
      ensures r.None? ==>
        && sessions == old(sessions) && occupancy == old(occupancy)
        && RunsTo(old(state), [Machine.Insert(s)], state)
    {
      hide RegistryOk, Machine.Enabled, Machine.Next, RunsTo, Stands, AfterInsert, SameMails, Queued;
      var tx := new Channel(Machine.SESSION_QUEUE_DEPTH);
      InsertionEffect(state, s, key);
      ghost var after := AfterInsert(state, s);
      if key.name in sessions {
        ReflectsSame(state, after, sessions);
        state := after;
        r := None;
      } else {
        EmptyMatches(tx);
        ReflectsInsertion(state, after, sessions, s, key, tx);
        state := after;
        sessions := sessions[key.name := SessionHandle(key, tx)];
        occupancy := occupancy + 1;
        r := Some(Claim(key, tx));
      }
    }

    /** A drop is a removal by name and a sub. */
    method Drop(key: Machine.Key, ghost s: Machine.Sid)
      requires Valid() && Machine.Enabled(state, Machine.Remove(s)) && state.actors[s].key == Some(key)
      modifies this
      ensures Valid()
      ensures sessions == old(sessions) - {key.name} && |sessions| == |old(sessions)| - 1
      ensures key.name in old(sessions) && old(sessions)[key.name].tx !in ChannelsOf(sessions)
      ensures Machine.Enabled(state, Machine.Close(s))
      ensures occupancy == old(occupancy) - 1
      ensures RunsTo(old(state), [Machine.Remove(s), Machine.Sub(s)], state)
    {
      hide RegistryOk, Machine.Enabled, Machine.Next, RunsTo, Stands, AfterRemove, SameMails, Queued;
      RemovalEffect(state, s, key);
      ghost var after := AfterRemove(state, s);
      OwnChannelGoes(state, sessions, key.name);
      if key.name in sessions {
        ReflectsRemoval(state, after, sessions, key.name);
        assert (sessions - {key.name}).Keys == sessions.Keys - {key.name};
        state := after;
        sessions := sessions - {key.name};
        occupancy := occupancy - 1;
      }
    }

    /** One turn of the broadcast loop. */
    method Visit(n: Str, origin: Machine.Key, payload: Bytes, ghost s: Machine.Sid, ghost frame: ServerFrame)
      requires Valid() && Carries(state, s, origin, frame) && payload == WireOf(frame)
      requires n in sessions && n in state.registry && Machine.Enabled(state, Machine.Visit(s, state.registry[n]))
      modifies this`state, sessions[n].tx
      ensures Valid() && n in old(state).registry
      ensures state == Machine.Next(old(state), Machine.Visit(s, old(state).registry[n]))
      ensures sessions[n].tx.open == old(sessions[n].tx.open)
      ensures sessions[n].tx.queue
           == if sessions[n].key.alloc == origin.alloc then old(sessions[n].tx.queue)
              else Accepted(old(sessions[n].tx.queue), sessions[n].tx.open, payload)
      ensures sessions[n].key.alloc != origin.alloc && sessions[n].tx.open && |old(sessions[n].tx.queue)| < 256 ==>
                sessions[n].tx.queue == old(sessions[n].tx.queue) + [payload]
    {
      hide RegistryOk, Machine.Enabled, Machine.Next, Queued, Machine.Offer, Reflects, Machine.Casts, WireOf;
      ghost var before := state;
      ghost var i := state.registry[n];
      ghost var after := Machine.Next(state, Machine.Visit(s, i));
      EntriesStand(state, sessions);
      VisitOffers(state, after, s, i, origin, frame);
      RegistryStep(state, Machine.Visit(s, i));
      var tx := sessions[n].tx;
      ghost var mail := state.actors[state.claims[i].addr].mail;
      QueuedOffer(mail, Machine.Item(state.actors[s].stage.it.pub, frame));
      if sessions[n].key.alloc != origin.alloc {
        var r := tx.TrySend(payload);
      }
      state := after;
      ReflectsVisit(before, after, sessions, n);
    }

    /** One turn of the loop over the map, with what the loop keeps. */
    method Turn(n: Str, origin: Machine.Key, payload: Bytes, ghost s: Machine.Sid, ghost frame: ServerFrame,
                ghost was: map<Str, Snapshot>, ghost todo: set<Str>)
      requires Valid() && MidCast(state, sessions.Keys, todo, s, origin, frame) && payload == WireOf(frame)
      requires n in todo && n in sessions && OfferedSoFar(sessions, was, todo, origin, payload)
      modifies this`state, sessions[n].tx
      ensures Valid() && MidCast(state, sessions.Keys, todo - {n}, s, origin, frame)
      ensures OfferedSoFar(sessions, was, todo - {n}, origin, payload)
      ensures n in old(state).registry && Machine.Enabled(old(state), Machine.Visit(s, old(state).registry[n]))
      ensures state == Machine.Next(old(state), Machine.Visit(s, old(state).registry[n]))
    {
      hide RegistryOk, Machine.Enabled, Machine.Next, Accepted, MidCast, Carries, Reflects, WireOf, Stands, Queued;
      MidCastStep(state, sessions.Keys, todo, s, origin, frame, n);
      OwnChannels(state, sessions, n);
      Visit(n, origin, payload, s, frame);
    }

    /** The loop over the map: undisturbed, a run of one publication, one visit for every entry and
        the end of the broadcast. Everybody but the sender is offered the frame exactly once. */
    method Broadcast(origin: Machine.Key, payload: Bytes, ghost s: Machine.Sid, ghost p: Machine.Event)
      returns (ghost visits: seq<nat>)
      requires Valid() && p.Publish? && p.s == s && Machine.Enabled(state, p)
      requires state.actors[s].key == Some(origin) && payload == WireOf(p.frame)
      modifies this`state, ChannelsOf(sessions)
      ensures Valid()
      ensures RunsTo(old(state), [p] + Visits(s, visits) + [Machine.EndCast(s)], state)
      ensures OfferedSoFar(sessions, old(Snapshots(sessions)), {}, origin, payload)
      ensures forall n :: n in sessions ==>
        && sessions[n].tx.open == old(sessions[n].tx.open)
        && sessions[n].tx.queue
           == if sessions[n].key.alloc == origin.alloc || !old(sessions[n].tx.open)
                 || |old(sessions[n].tx.queue)| >= 256 then old(sessions[n].tx.queue)
              else old(sessions[n].tx.queue) + [payload]
      ensures Machine.At(state, s) && state.actors[s].key == Some(origin)
      ensures state.actors[s].stage == if p.frame.Departed? then Machine.Releasing else Machine.Open
    {
      hide RegistryOk, Machine.Enabled, Machine.Next, Reflects, RunsTo, Accepted, WireOf, MidCast, Visits,
        OfferedSoFar, Snapshots;
      ghost var before := state;
      ghost var was := Snapshots(sessions);
      SnapshotsAre(sessions);
      NothingOffered(sessions, origin, payload);
      CastBegins(state, sessions, s, p, origin);
      state := Machine.Next(state, p);
      visits := [];
      var todo := sessions.Keys;
      while todo != {}
        invariant Valid() && todo <= sessions.Keys
        invariant MidCast(state, sessions.Keys, todo, s, origin, p.frame)
        invariant OfferedSoFar(sessions, was, todo, origin, payload)
        invariant RunsTo(before, [p] + Visits(s, visits), state)
        decreases |todo|
      {
        var n :| n in todo;
        ghost var earlier := state;
        Turn(n, origin, payload, s, p.frame, was, todo);
        ExtendVisits(before, p, s, visits, earlier, earlier.registry[n]);
        visits := visits + [earlier.registry[n]];
        todo := todo - {n};
      }
      CastFinished(state, sessions, s, origin, p.frame);
      ExtendRun(before, [p] + Visits(s, visits), state, Machine.EndCast(s));
      state := Machine.Next(state, Machine.EndCast(s));
      OfferedInFull(sessions, was, origin, payload);
    }

    /** The session takes its next frame; while its entry stands there is no end of the stream. */
    method Recv(n: Str, ghost s: Machine.Sid) returns (r: Option<Bytes>)
      requires Valid() && n in sessions && Owns(state, s, n) && state.actors[s].stage.Open?
      modifies this`state, sessions[n].tx
      ensures Valid() && sessions[n].tx.open == old(sessions[n].tx.open)
      ensures old(sessions[n].tx.queue) == [] ==> r == None && sessions[n].tx.queue == [] && state == old(state)
      ensures old(sessions[n].tx.queue) != [] ==>
        && r == Some(old(sessions[n].tx.queue)[0]) && sessions[n].tx.queue == old(sessions[n].tx.queue)[1..]
        && RunsTo(old(state), [Machine.Take(s)], state)
    {
      hide RegistryOk, Machine.Enabled, Machine.Next, Queued, Reflects, RunsTo, Owns;
      ghost var before := state;
      EntriesStand(state, sessions);
      OwnerFound(state, s, n);
      r := sessions[n].tx.Recv();
      if r.Some? {
        TakeEffect(before, s, n);
        state := Machine.Next(before, Machine.Take(s));
      }
      ReflectsVisit(before, state, sessions, n);
    }

    /** A session that could not be welcomed drops its mailbox while its entry still stands. */
    method GiveUp(n: Str, ghost s: Machine.Sid)
      requires Valid() && n in sessions && Owns(state, s, n) && state.actors[s].stage.Silent?
      modifies this`state, sessions[n].tx
      ensures Valid() && !sessions[n].tx.open && sessions[n].tx.queue == old(sessions[n].tx.queue)
      ensures Owns(state, s, n) && state.actors[s].stage.Releasing?
      ensures RunsTo(old(state), [Machine.GiveUp(s)], state)
    {
      hide RegistryOk, Machine.Enabled, Machine.Next, Queued, Reflects, RunsTo, Owns;
      ghost var before := state;
      EntriesStand(state, sessions);
      OwnerFound(state, s, n);
      GiveUpEffect(state, s, n);
      sessions[n].tx.Close();
      state := Machine.Next(before, Machine.GiveUp(s));
      ReflectsVisit(before, state, sessions, n);
    }

    /** A session whose claim is gone drops its mailbox. */
    method Close(mailbox: Channel, ghost s: Machine.Sid)
      requires Valid() && mailbox !in ChannelsOf(sessions) && Machine.Enabled(state, Machine.Close(s))
      modifies this`state, mailbox
      ensures Valid() && !mailbox.open && mailbox.queue == old(mailbox.queue)
      ensures RunsTo(old(state), [Machine.Close(s)], state)
    {
      hide RegistryOk, Machine.Enabled, Machine.Next, Queued, Reflects, RunsTo;
      CloseEffect(state, s, sessions);
      mailbox.Close();
      state := Machine.Next(state, Machine.Close(s));
    }

    method Occupancy() returns (n: int)
      requires Valid()
      ensures n == state.occupancy
    {
      n := occupancy;
    }
  }

  /** A whole undisturbed session: it is let in if and only if its name is free, and leaves the map
      and the counter as it found them. */
  method Sojourn(hub: Hub, name: Str) returns (admitted: bool)
    requires hub.Valid()
    modifies hub, ChannelsOf(hub.sessions)
    ensures hub.Valid() && (admitted <==> name !in old(hub.sessions))
    ensures hub.sessions == old(hub.sessions) && hub.occupancy == old(hub.occupancy)
  {
    hide RegistryOk, Machine.Enabled, Machine.Next, Reflects, RunsTo, OfferedSoFar, Snapshots, WireOf, Visits,
      Hub.Valid;
    var key, s := hub.NewKey(name);
    var r := hub.TryRegister(key, s);
    if r.None? {
      return false;
    }
    OneChannelMore(old(hub.sessions), SessionHandle(key, r.value.mailbox));
    MayAnnounce(hub.state, s, key);
    ghost var joined := hub.Broadcast(key, WireOf(Joined(name)), s, Machine.Publish(s, Joined(name), 0, 0.0));
    MayAnnounce(hub.state, s, key);
    ghost var departed := hub.Broadcast(key, WireOf(Departed(name)), s, Machine.Publish(s, Departed(name), 0, 0.0));
    MayAnnounce(hub.state, s, key);
    hub.Drop(key, s);
    hub.Close(r.value.mailbox, s);
    admitted := true;
  }

  lemma OneChannelMore(m: map<Str, SessionHandle>, e: SessionHandle)
    requires e.key.name !in m
    ensures ChannelsOf(m[e.key.name := e]) == ChannelsOf(m) + {e.tx}
    ensures m[e.key.name := e] - {e.key.name} == m
  {
    var k := m[e.key.name := e];
    forall c | c in ChannelsOf(m) ensures c in ChannelsOf(k) {
      var n :| n in m && m[n].tx == c;
      assert k[n].tx == c;
    }
    assert k[e.key.name].tx == e.tx;
  }

  lemma MayAnnounce(h: Machine.Hub, s: Machine.Sid, key: Machine.Key)
    requires Machine.At(h, s) && h.actors[s].key == Some(key)
    ensures h.actors[s].stage.Silent? ==> Machine.Enabled(h, Machine.Publish(s, Joined(key.name), 0, 0.0))
    ensures h.actors[s].stage.Open? ==> Machine.Enabled(h, Machine.Publish(s, Departed(key.name), 0, 0.0))
    ensures h.actors[s].stage.Releasing? ==> Machine.Enabled(h, Machine.Remove(s))
  {
  }

  /** The session holds the name: the entry under it is this session's own. */
  predicate Owns(h: Machine.Hub, s: Machine.Sid, n: Str) {
    && Machine.At(h, s) && h.actors[s].key.Some? && h.actors[s].key.value.name == n
  }

  /** A mailbox after a frame has been offered to it. */
  function Accepted(queue: seq<Bytes>, open: bool, x: Bytes): seq<Bytes> {
    if open && |queue| < Machine.SESSION_QUEUE_DEPTH then queue + [x] else queue
  }

  /** The session, whose key is `origin`, is broadcasting `frame`. */
  predicate Carries(h: Machine.Hub, s: Machine.Sid, origin: Machine.Key, frame: ServerFrame) {
    && Machine.At(h, s) && Machine.Casting(h.actors[s].stage) && h.actors[s].key == Some(origin)
    && h.actors[s].stage.it.pub < |h.pubs| && h.pubs[h.actors[s].stage.it.pub].frame == frame
    && h.actors[s].stage == Machine.Casts(h.actors[s].stage.it, frame)
  }

  /** The broadcast has visited exactly the entries of `names` outside `todo`, and nothing has been
      registered or released since it began. */
  ghost predicate MidCast(h: Machine.Hub, names: set<Str>, todo: set<Str>, s: Machine.Sid, origin: Machine.Key,
                          frame: ServerFrame) {
    && Carries(h, s, origin, frame) && h.registry.Keys == names
    && h.actors[s].stage.it.start == Machine.PresentClaims(h)
    && forall n :: n in h.registry ==> (h.registry[n] in h.actors[s].stage.it.seen <==> n !in todo)
  }

  datatype Snapshot = Snapshot(queue: seq<Bytes>, open: bool)

  ghost function Snapshots(sessions: map<Str, SessionHandle>): map<Str, Snapshot>
    reads ChannelsOf(sessions)
  {
    map n | n in sessions ::
      (assert sessions[n].tx in ChannelsOf(sessions); Snapshot(sessions[n].tx.queue, sessions[n].tx.open))
  }

  /** Since the snapshot, the frame has been offered once to every entry outside `todo` except the
      sender's own, and nothing else has happened to the mailboxes. */
  ghost predicate OfferedSoFar(sessions: map<Str, SessionHandle>, was: map<Str, Snapshot>, todo: set<Str>,
                               origin: Machine.Key, payload: Bytes)
    reads ChannelsOf(sessions)
  {
    forall n :: n in sessions ==>
      && n in was && sessions[n].tx in ChannelsOf(sessions) && sessions[n].tx.open == was[n].open
      && sessions[n].tx.queue
         == if n in todo || sessions[n].key.alloc == origin.alloc then was[n].queue
            else Accepted(was[n].queue, was[n].open, payload)
  }

  /** Undisturbed, these steps lead from one state to the other. */
  predicate RunsTo(h: Machine.Hub, evs: seq<Machine.Event>, k: Machine.Hub) {
    Machine.ValidRun(h, evs) && Machine.Run(h, evs) == k
  }

  function AfterArrival(h: Machine.Hub, name: Str): Machine.Hub {
    Machine.Next(Machine.Next(h, Machine.Spawn), Machine.MakeKey(|h.actors|, name))
  }

  function AfterInsert(h: Machine.Hub, s: Machine.Sid): Machine.Hub
    requires Machine.Enabled(h, Machine.Insert(s))
  {
    var k := Machine.Next(h, Machine.Insert(s));
    if Machine.Enabled(k, Machine.Add(s)) then Machine.Next(k, Machine.Add(s)) else k
  }

  function AfterRemove(h: Machine.Hub, s: Machine.Sid): Machine.Hub
    requires Machine.Enabled(h, Machine.Remove(s))
  {
    var k := Machine.Next(h, Machine.Remove(s));
    if Machine.Enabled(k, Machine.Sub(s)) then Machine.Next(k, Machine.Sub(s)) else k
  }

  /** Two states whose actors have the same mailboxes. */
  predicate SameMails(h: Machine.Hub, k: Machine.Hub) {
    |k.actors| == |h.actors| && forall r :: 0 <= r < |h.actors| ==> k.actors[r].mail == h.actors[r].mail
  }

  lemma EmptyMatches(tx: Channel)
    requires tx.capacity == Machine.SESSION_QUEUE_DEPTH && tx.open && tx.queue == []
    ensures tx.Matches(Machine.EMPTY_MAILBOX)
  {
  }

  lemma ReflectsSame(h: Machine.Hub, k: Machine.Hub, m: map<Str, SessionHandle>)
    requires Reflects(h, m) && SameMails(h, k) && k.registry == h.registry && k.claims == h.claims
    ensures Reflects(k, m)
  {
    hide Queued;
    forall n | n in m ensures Stands(k, n, m[n]) { assert Stands(h, n, m[n]); }
  }

  lemma OwnChannels(h: Machine.Hub, m: map<Str, SessionHandle>, n: Str)
    requires Reflects(h, m) && n in m
    ensures n in h.registry && forall o :: o in m && o != n ==> m[o].tx != m[n].tx
  {
  }

  lemma EntriesStand(h: Machine.Hub, m: map<Str, SessionHandle>)
    requires Reflects(h, m)
    ensures Separate(m) && h.registry.Keys == m.Keys && forall n :: n in m ==> Stands(h, n, m[n])
  {
  }

  /** A visit to the entry under `n` leaves the others standing. */
  lemma ReflectsVisit(h: Machine.Hub, k: Machine.Hub, m: map<Str, SessionHandle>, n: Str)
    requires RegistryOk(h) && n in m && Separate(m) && h.registry.Keys == m.Keys
    requires forall o :: o in m && o != n ==> Stands(h, o, m[o])
    requires k.registry == h.registry && k.claims == h.claims && |k.actors| == |h.actors|
    requires h.registry[n] < |h.claims|
    requires forall r :: 0 <= r < |h.actors| && r != h.claims[h.registry[n]].addr ==>
               k.actors[r].mail == h.actors[r].mail
    requires Stands(k, n, m[n])
    ensures Reflects(k, m)
  {
    hide RegistryOk, Stands;
    forall o | o in m ensures m[o].tx in ChannelsOf(m) && Stands(k, o, m[o]) {
      if o != n { OthersStand(h, k, n, o, m[o]); }
    }
  }

  lemma StandsKept(h: Machine.Hub, k: Machine.Hub, n: Str, e: SessionHandle)
    requires Stands(h, n, e) && SameMails(h, k) && n in k.registry && k.registry[n] == h.registry[n]
    requires h.claims <= k.claims
    ensures Stands(k, n, e)
  {
    hide Queued;
  }

  lemma ReflectsInsertion(h: Machine.Hub, k: Machine.Hub, m: map<Str, SessionHandle>, s: Machine.Sid,
                          key: Machine.Key, tx: Channel)
    requires Reflects(h, m) && SameMails(h, k) && key.name !in m && tx !in ChannelsOf(m)
    requires k.registry == h.registry[key.name := |h.claims|] && k.claims == h.claims + [Machine.Entry(key, s)]
    requires Machine.At(h, s) && tx.Matches(h.actors[s].mail)
    ensures Reflects(k, m[key.name := SessionHandle(key, tx)])
  {
    hide Stands;
    var m' := m[key.name := SessionHandle(key, tx)];
    NewcomerStands(h, k, s, key, tx);
    forall n | n in m' ensures m'[n].tx in ChannelsOf(m') && Stands(k, n, m'[n]) {
      if n != key.name {
        assert m[n].tx in ChannelsOf(m);
        StandsKept(h, k, n, m[n]);
      }
    }
  }

  lemma NewcomerStands(h: Machine.Hub, k: Machine.Hub, s: Machine.Sid, key: Machine.Key, tx: Channel)
    requires SameMails(h, k) && Machine.At(h, s) && tx.Matches(h.actors[s].mail)
    requires k.registry == h.registry[key.name := |h.claims|] && k.claims == h.claims + [Machine.Entry(key, s)]
    ensures Stands(k, key.name, SessionHandle(key, tx))
  {
    hide Queued;
  }

  lemma ReflectsRemoval(h: Machine.Hub, k: Machine.Hub, m: map<Str, SessionHandle>, name: Str)
    requires Reflects(h, m) && SameMails(h, k) && k.registry == h.registry - {name} && k.claims == h.claims
    ensures Reflects(k, m - {name})
  {
    hide Stands;
    forall n | n in m - {name} ensures (m - {name})[n].tx in ChannelsOf(m - {name}) && Stands(k, n, m[n]) {
      StandsKept(h, k, n, m[n]);
    }
  }

  /** More sessions may have been spawned, and keys made. */
  lemma ReflectsLonger(h: Machine.Hub, k: Machine.Hub, m: map<Str, SessionHandle>)
    requires Reflects(h, m) && k.registry == h.registry && k.claims == h.claims && |k.actors| >= |h.actors|
    requires forall r :: 0 <= r < |h.actors| ==> k.actors[r].mail == h.actors[r].mail
    ensures Reflects(k, m)
  {
    hide Queued;
    forall n | n in m ensures m[n].tx in ChannelsOf(m) && Stands(k, n, m[n]) { assert Stands(h, n, m[n]); }
  }

  lemma ArrivalEffect(h: Machine.Hub, name: Str)
    requires RegistryOk(h)
    ensures var k := AfterArrival(h, name);
            var s := |h.actors|;
            && RegistryOk(k) && k.registry == h.registry && k.claims == h.claims && k.occupancy == h.occupancy
            && k.nextAlloc == h.nextAlloc + 1 && |k.actors| == s + 1
            && (forall r :: 0 <= r < s ==> k.actors[r].mail == h.actors[r].mail)
            && Machine.Enabled(k, Machine.Insert(s)) && k.actors[s].key == Some(Machine.Key(name, h.nextAlloc))
            && RunsTo(h, [Machine.Spawn, Machine.MakeKey(s, name)], k)
  {
    hide RegistryOk, RunsTo;
    var k1 := Machine.Next(h, Machine.Spawn);
    RegistryStep(h, Machine.Spawn);
    RegistryStep(k1, Machine.MakeKey(|h.actors|, name));
    TwoSteps(h, Machine.Spawn, Machine.MakeKey(|h.actors|, name));
  }

  lemma OwnerFound(h: Machine.Hub, s: Machine.Sid, n: Str)
    requires RegistryOk(h) && Owns(h, s, n) && Machine.Holding(h.actors[s].stage)
    ensures n in h.registry && h.registry[n] < |h.claims| && h.claims[h.registry[n]].addr == s
  {
    HolderFound(h, s);
  }

  /** A step of the owner of `n` that touches nothing but its own stage and mailbox. */
  predicate OnlyOwner(h: Machine.Hub, k: Machine.Hub, s: Machine.Sid) {
    && k.registry == h.registry && k.claims == h.claims && |k.actors| == |h.actors|
    && k.occupancy == h.occupancy && k.nextAlloc == h.nextAlloc
    && forall r :: 0 <= r < |h.actors| && r != s ==> k.actors[r].mail == h.actors[r].mail
  }

  lemma TakeEffect(h: Machine.Hub, s: Machine.Sid, n: Str)
    requires RegistryOk(h) && Owns(h, s, n) && h.actors[s].stage.Open? && n in h.registry && h.registry[n] < |h.claims|
    requires h.actors[s].mail.taken <= |h.actors[s].mail.enq|
    requires Queued(h.actors[s].mail.enq[h.actors[s].mail.taken..]) != []
    ensures Machine.Enabled(h, Machine.Take(s))
    ensures var k := Machine.Next(h, Machine.Take(s));
            var m, q := h.actors[s].mail, k.actors[s].mail;
            && RegistryOk(k) && OnlyOwner(h, k, s) && RunsTo(h, [Machine.Take(s)], k)
            && q.open == m.open && q.taken <= |q.enq| && Queued(q.enq[q.taken..]) == Queued(m.enq[m.taken..])[1..]
  {
    hide RegistryOk, RunsTo, Queued;
    var m := h.actors[s].mail;
    QueuedTail(m.enq[m.taken..]);
    assert m.enq[m.taken..][1..] == m.enq[m.taken + 1..];
    RegistryStep(h, Machine.Take(s));
    OneStep(h, Machine.Take(s));
  }

  lemma QueuedTail(items: seq<Machine.Item>)
    requires Queued(items) != []
    ensures items != [] && Queued(items[1..]) == Queued(items)[1..]
  {
    hide WireOf;
    var a, b := Queued(items[1..]), Queued(items)[1..];
    assert |a| == |b|;
    forall i | 0 <= i < |a| ensures a[i] == b[i] { assert items[1..][i] == items[i + 1]; }
  }

  lemma GiveUpEffect(h: Machine.Hub, s: Machine.Sid, n: Str)
    requires RegistryOk(h) && Owns(h, s, n) && h.actors[s].stage.Silent?
    ensures Machine.Enabled(h, Machine.GiveUp(s))
    ensures var k := Machine.Next(h, Machine.GiveUp(s));
            && RegistryOk(k) && OnlyOwner(h, k, s) && RunsTo(h, [Machine.GiveUp(s)], k)
            && k.actors[s].mail == h.actors[s].mail.(open := false)
            && Owns(k, s, n) && k.actors[s].stage.Releasing?
  {
    hide RegistryOk, RunsTo;
    RegistryStep(h, Machine.GiveUp(s));
    OneStep(h, Machine.GiveUp(s));
  }

  /** No entry is left of a session that is about to close its mailbox. */
  lemma CloseEffect(h: Machine.Hub, s: Machine.Sid, m: map<Str, SessionHandle>)
    requires RegistryOk(h) && Reflects(h, m) && Machine.Enabled(h, Machine.Close(s))
    ensures var k := Machine.Next(h, Machine.Close(s));
            && RegistryOk(k) && OnlyOwner(h, k, s) && RunsTo(h, [Machine.Close(s)], k) && Reflects(k, m)
  {
    hide RegistryOk, RunsTo, Stands, Queued;
    RegistryStep(h, Machine.Close(s));
    OneStep(h, Machine.Close(s));
    var k := Machine.Next(h, Machine.Close(s));
    forall n | n in m ensures m[n].tx in ChannelsOf(m) && Stands(k, n, m[n]) {
      assert Stands(h, n, m[n]);
      EntryHeld(h, s, n);
      OtherStands(h, k, s, n, m[n]);
    }
  }

  lemma EntryHeld(h: Machine.Hub, s: Machine.Sid, n: Str)
    requires RegistryOk(h) && Machine.At(h, s) && h.actors[s].stage.Closing? && n in h.registry
    ensures h.registry[n] < |h.claims| && h.claims[h.registry[n]].addr != s
  {
    assert Machine.Present(h, h.registry[n]);
  }

  lemma OtherStands(h: Machine.Hub, k: Machine.Hub, s: Machine.Sid, n: Str, e: SessionHandle)
    requires Stands(h, n, e) && OnlyOwner(h, k, s) && h.claims[h.registry[n]].addr != s
    ensures Stands(k, n, e)
  {
    hide Queued;
  }

  lemma OwnChannelGoes(h: Machine.Hub, m: map<Str, SessionHandle>, n: Str)
    requires Reflects(h, m) && n in h.registry
    ensures n in m && m[n].tx !in ChannelsOf(m - {n})
  {
    hide Stands;
  }

  lemma InsertionEffect(h: Machine.Hub, s: Machine.Sid, key: Machine.Key)
    requires RegistryOk(h) && Machine.Enabled(h, Machine.Insert(s)) && h.actors[s].key == Some(key)
    ensures var k := AfterInsert(h, s);
            && SameMails(h, k) && RegistryOk(k) && k.nextAlloc == h.nextAlloc
            && if key.name in h.registry then
                 && k.registry == h.registry && k.claims == h.claims && k.occupancy == h.occupancy
                 && RunsTo(h, [Machine.Insert(s)], k)
               else
                 && k.registry == h.registry[key.name := |h.claims|] && k.claims == h.claims + [Machine.Entry(key, s)]
                 && k.occupancy == h.occupancy + 1
                 && RunsTo(h, [Machine.Insert(s), Machine.Add(s)], k)
                 && Machine.At(k, s) && k.actors[s].key == Some(key) && k.actors[s].stage.Silent?
    ensures Machine.At(h, s) && h.actors[s].mail == Machine.EMPTY_MAILBOX
  {
    var k1 := Machine.Next(h, Machine.Insert(s));
    RegistryStep(h, Machine.Insert(s));
    assert h.actors[s].mail == Machine.EMPTY_MAILBOX;
    hide RegistryOk, RunsTo;
    if key.name !in h.registry {
      RegistryStep(k1, Machine.Add(s));
      TwoSteps(h, Machine.Insert(s), Machine.Add(s));
    } else {
      OneStep(h, Machine.Insert(s));
    }
  }

  lemma RemovalEffect(h: Machine.Hub, s: Machine.Sid, key: Machine.Key)
    requires RegistryOk(h) && Machine.Enabled(h, Machine.Remove(s)) && h.actors[s].key == Some(key)
    ensures key.name in h.registry
    ensures var k := AfterRemove(h, s);
            && SameMails(h, k) && RegistryOk(k)
            && k.registry == h.registry - {key.name} && k.claims == h.claims && k.occupancy == h.occupancy - 1
            && k.nextAlloc == h.nextAlloc && Machine.Enabled(k, Machine.Close(s))
            && RunsTo(h, [Machine.Remove(s), Machine.Sub(s)], k)
  {
    hide RegistryOk, RunsTo;
    RemoveFindsOwnEntry(h, s);
    RegistryStep(h, Machine.Remove(s));
    var k1 := Machine.Next(h, Machine.Remove(s));
    RegistryStep(k1, Machine.Sub(s));
    TwoSteps(h, Machine.Remove(s), Machine.Sub(s));
  }

  /** A visit offers the frame to the entry's owner, unless the entry's key is the sender's own. */
  lemma VisitOffers(h: Machine.Hub, k: Machine.Hub, s: Machine.Sid, i: nat, origin: Machine.Key, frame: ServerFrame)
    requires RegistryOk(h) && Machine.Enabled(h, Machine.Visit(s, i)) && k == Machine.Next(h, Machine.Visit(s, i))
    requires Carries(h, s, origin, frame)
    ensures i < |h.claims| && Machine.At(h, h.claims[i].addr)
    ensures k.registry == h.registry && k.claims == h.claims && k.occupancy == h.occupancy && |k.actors| == |h.actors|
    ensures k.nextAlloc == h.nextAlloc
    ensures var t := h.claims[i].addr;
            && (forall r :: 0 <= r < |h.actors| && r != t ==> k.actors[r].mail == h.actors[r].mail)
            && k.actors[t].mail
               == if h.claims[i].key.alloc == origin.alloc then h.actors[t].mail
                  else Machine.Offer(h.actors[t].mail, Machine.Item(h.actors[s].stage.it.pub, frame))
    ensures Carries(k, s, origin, frame)
    ensures k.actors[s].stage.it == h.actors[s].stage.it.(seen := h.actors[s].stage.it.seen + {i})
  {
    VisitDoes(h, s, i);
    PointerFilterIsExact(h, s, i);
    hide RegistryOk, Machine.Offer;
  }

  lemma OthersStand(h: Machine.Hub, k: Machine.Hub, n: Str, m: Str, e: SessionHandle)
    requires RegistryOk(h) && Stands(h, m, e) && n != m && n in h.registry && h.registry[n] < |h.claims|
    requires k.registry == h.registry && k.claims == h.claims && |k.actors| == |h.actors|
    requires forall r :: 0 <= r < |h.actors| && r != h.claims[h.registry[n]].addr ==>
               k.actors[r].mail == h.actors[r].mail
    ensures Stands(k, m, e)
  {
    var i, j := h.registry[n], h.registry[m];
    assert h.claims[i].key.name == n && h.claims[j].key.name == m;
    assert h.actors[h.claims[i].addr].claim == Some(i) && h.actors[h.claims[j].addr].claim == Some(j);
    hide RegistryOk, Queued;
  }

  lemma QueuedOffer(m: Machine.Mailbox, x: Machine.Item)
    requires m.taken <= |m.enq|
    ensures var o := Machine.Offer(m, x);
            && o.open == m.open && o.taken == m.taken <= |o.enq|
            && Queued(o.enq[o.taken..]) == Accepted(Queued(m.enq[m.taken..]), m.open, WireOf(x.frame))
  {
    assert (m.enq + [x])[m.taken..] == m.enq[m.taken..] + [x];
    QueuedPush(m.enq[m.taken..], x);
  }

  lemma QueuedPush(items: seq<Machine.Item>, x: Machine.Item)
    ensures Queued(items + [x]) == Queued(items) + [WireOf(x.frame)]
  {
  }

  function Visits(s: Machine.Sid, entries: seq<nat>): seq<Machine.Event> {
    seq(|entries|, j requires 0 <= j < |entries| => Machine.Visit(s, entries[j]))
  }

  lemma ExtendVisits(h: Machine.Hub, p: Machine.Event, s: Machine.Sid, visits: seq<nat>, k: Machine.Hub, i: nat)
    requires RunsTo(h, [p] + Visits(s, visits), k) && Machine.Enabled(k, Machine.Visit(s, i))
    ensures RunsTo(h, [p] + Visits(s, visits + [i]), Machine.Next(k, Machine.Visit(s, i)))
  {
    hide RunsTo, Machine.Enabled, Machine.Next;
    ExtendRun(h, [p] + Visits(s, visits), k, Machine.Visit(s, i));
    assert [p] + Visits(s, visits + [i]) == [p] + Visits(s, visits) + [Machine.Visit(s, i)];
  }

  lemma ExtendRun(h: Machine.Hub, evs: seq<Machine.Event>, k: Machine.Hub, e: Machine.Event)
    requires RunsTo(h, evs, k) && Machine.Enabled(k, e)
    ensures RunsTo(h, evs + [e], Machine.Next(k, e))
  {
    hide Machine.Enabled, Machine.Next;
    assert (evs + [e])[..|evs + [e]| - 1] == evs;
  }

  lemma PublishStarts(h: Machine.Hub, s: Machine.Sid, p: Machine.Event, origin: Machine.Key)
    requires RegistryOk(h) && p.Publish? && p.s == s && Machine.Enabled(h, p) && h.actors[s].key == Some(origin)
    ensures var k := Machine.Next(h, p);
            && RegistryOk(k) && SameMails(h, k) && k.registry == h.registry && k.claims == h.claims
            && k.occupancy == h.occupancy && k.nextAlloc == h.nextAlloc
            && Carries(k, s, origin, p.frame) && k.actors[s].stage.it.seen == {}
            && k.actors[s].stage.it.start == Machine.PresentClaims(k)
  {
    RegistryStep(h, p);
    SamePresentClaims(h, Machine.Next(h, p));
    hide RegistryOk, Machine.PresentClaims;
  }

  lemma SamePresentClaims(h: Machine.Hub, k: Machine.Hub)
    requires k.registry == h.registry && k.claims == h.claims
    ensures Machine.PresentClaims(h) == Machine.PresentClaims(k)
  {
    assert forall i: nat :: Machine.Present(h, i) <==> Machine.Present(k, i);
  }

  lemma SnapshotsAre(m: map<Str, SessionHandle>)
    ensures forall n :: n in m ==> n in Snapshots(m) && Snapshots(m)[n] == Snapshot(m[n].tx.queue, m[n].tx.open)
  {
  }

  /** What it means that nothing is left to do. */
  lemma OfferedInFull(m: map<Str, SessionHandle>, was: map<Str, Snapshot>, origin: Machine.Key, payload: Bytes)
    requires OfferedSoFar(m, was, {}, origin, payload)
    ensures forall n :: n in m ==>
      && n in was && m[n].tx.open == was[n].open
      && m[n].tx.queue
         == if m[n].key.alloc == origin.alloc || !was[n].open || |was[n].queue| >= 256 then was[n].queue
            else was[n].queue + [payload]
  {
  }

  lemma NothingOffered(m: map<Str, SessionHandle>, origin: Machine.Key, payload: Bytes)
    ensures OfferedSoFar(m, Snapshots(m), m.Keys, origin, payload)
  {
    forall n | n in m ensures m[n].tx in ChannelsOf(m) {}
  }

  /** Publishing starts a loop with every entry still to visit. */
  lemma CastBegins(h: Machine.Hub, m: map<Str, SessionHandle>, s: Machine.Sid, p: Machine.Event, origin: Machine.Key)
    requires RegistryOk(h) && Reflects(h, m)
    requires p.Publish? && p.s == s && Machine.Enabled(h, p) && h.actors[s].key == Some(origin)
    ensures var k := Machine.Next(h, p);
            && RegistryOk(k) && Reflects(k, m) && k.occupancy == h.occupancy && k.nextAlloc == h.nextAlloc
            && MidCast(k, m.Keys, m.Keys, s, origin, p.frame)
            && RunsTo(h, [p] + Visits(s, []), k)
  {
    hide RegistryOk, Machine.Enabled, Machine.Next, RunsTo, Machine.PresentClaims, Stands;
    var k := Machine.Next(h, p);
    PublishStarts(h, s, p, origin);
    ReflectsSame(h, k, m);
    OneStep(h, p);
    assert [p] + Visits(s, []) == [p];
  }

  lemma MayVisit(h: Machine.Hub, s: Machine.Sid, origin: Machine.Key, frame: ServerFrame, n: Str)
    requires RegistryOk(h) && Carries(h, s, origin, frame) && n in h.registry
    requires h.actors[s].stage.it.start == Machine.PresentClaims(h) && h.registry[n] !in h.actors[s].stage.it.seen
    ensures Machine.Enabled(h, Machine.Visit(s, h.registry[n]))
  {
    assert h.registry[n] < |h.claims| && h.claims[h.registry[n]].key.name == n;
    assert Machine.Present(h, h.registry[n]);
  }

  /** Different names find different entries. */
  lemma DistinctClaims(h: Machine.Hub, n: Str, m: Str)
    requires RegistryOk(h) && n in h.registry && m in h.registry && n != m
    ensures h.registry[n] != h.registry[m]
  {
    assert h.claims[h.registry[n]].key.name == n && h.claims[h.registry[m]].key.name == m;
  }

  lemma MidCastStep(h: Machine.Hub, names: set<Str>, todo: set<Str>, s: Machine.Sid, origin: Machine.Key,
                    frame: ServerFrame, n: Str)
    requires RegistryOk(h) && MidCast(h, names, todo, s, origin, frame) && n in todo && n in names
    ensures Machine.Enabled(h, Machine.Visit(s, h.registry[n])) && Carries(h, s, origin, frame)
    ensures MidCast(Machine.Next(h, Machine.Visit(s, h.registry[n])), names, todo - {n}, s, origin, frame)
  {
    MayVisit(h, s, origin, frame, n);
    var i := h.registry[n];
    var k := Machine.Next(h, Machine.Visit(s, i));
    VisitOffers(h, k, s, i, origin, frame);
    SamePresentClaims(h, k);
    forall m | m in k.registry ensures k.registry[m] in k.actors[s].stage.it.seen <==> m !in todo - {n} {
      if m != n { DistinctClaims(h, n, m); }
    }
    hide RegistryOk, Machine.Enabled, Machine.Next, Machine.PresentClaims;
  }

  /** With every entry visited the broadcast is over. */
  lemma CastFinished(h: Machine.Hub, m: map<Str, SessionHandle>, s: Machine.Sid, origin: Machine.Key,
                     frame: ServerFrame)
    requires RegistryOk(h) && Reflects(h, m) && MidCast(h, m.Keys, {}, s, origin, frame)
    ensures Machine.Enabled(h, Machine.EndCast(s))
    ensures var k := Machine.Next(h, Machine.EndCast(s));
            && RegistryOk(k) && Reflects(k, m) && k.occupancy == h.occupancy && k.nextAlloc == h.nextAlloc
            && Machine.At(k, s) && k.actors[s].key == Some(origin)
            && k.actors[s].stage == if frame.Departed? then Machine.Releasing else Machine.Open
  {
    hide Reflects, RegistryOk;
    AllSeen(h, m.Keys, s, origin, frame);
    RegistryStep(h, Machine.EndCast(s));
    ReflectsSame(h, Machine.Next(h, Machine.EndCast(s)), m);
  }

  lemma AllSeen(h: Machine.Hub, names: set<Str>, s: Machine.Sid, origin: Machine.Key, frame: ServerFrame)
    requires RegistryOk(h) && MidCast(h, names, {}, s, origin, frame)
    ensures Machine.Enabled(h, Machine.EndCast(s))
  {
    forall i: nat | Machine.Present(h, i) ensures i in h.actors[s].stage.it.seen {
      assert h.claims[i].key.name in h.registry;
    }
  }

  lemma TwoSteps(h: Machine.Hub, a: Machine.Event, b: Machine.Event)
    requires Machine.Enabled(h, a) && Machine.Enabled(Machine.Next(h, a), b)
    ensures RunsTo(h, [a, b], Machine.Next(Machine.Next(h, a), b))
  {
    hide Machine.Enabled, Machine.Next;
    OneStep(h, a);
    assert [a, b][..1] == [a];
  }

  lemma OneStep(h: Machine.Hub, a: Machine.Event)
    requires Machine.Enabled(h, a)
    ensures RunsTo(h, [a], Machine.Next(h, a))
  {
    hide Machine.Enabled, Machine.Next;
    var evs := [a];
    assert evs[..|evs| - 1] == [];
    assert Machine.ValidRun(h, []) && Machine.Run(h, []) == h;
    assert Machine.ValidRun(h, evs);
  }
}
