/** The hub as a step machine: many sessions share a registry map, a separate occupancy counter
    and one bounded mailbox each (server/src/actor/hub.rs, server/src/actor/session.rs).

    Every atomic operation of the source is a step of its own, so any interleaving of sessions is
    a run of this machine. A broadcast is a loop over a map that others change meanwhile. Of the
    map's iterator only this is assumed: an entry present throughout an iteration is visited
    exactly once, and any other entry at most once, and only if it was present at some moment of
    the iteration. */
module HubMachine {
  import opened Wrappers
  import opened Utf8
  import opened Frames

  const SESSION_QUEUE_DEPTH: nat := 256

  // ----- state -----

  /** A session is named by its position in `actors`. */
  type Sid = nat

  /** An `Arc<str>`: the text, and the identity of its allocation. */
  datatype Key = Key(name: Str, alloc: nat)

  /** A map entry: its key and the mailbox it addresses. */
  datatype Entry = Entry(key: Key, addr: Sid)

  /** A queued frame, with the broadcast it belongs to. */
  datatype Item = Item(pub: nat, frame: ServerFrame)

  /** A bounded channel. `enq` is everything ever queued, of which the receiver has taken a prefix;
      `lost` names the broadcasts whose frames were dropped, because it was full or closed. */
  datatype Mailbox = Mailbox(
    open: bool,
    enq: seq<Item>,
    taken: nat,
    lost: seq<nat>,
    offered: nat,
    full: nat,
    closed: nat)

  /** A broadcast in progress: the entries present when it began, how many entries had ever been
      inserted by then, and the entries visited so far. Entries are named by insertion order. */
  datatype Iter = Iter(pub: nat, start: set<nat>, from: nat, seen: set<nat>)

  datatype Stage =
    | Idle              // no key yet
    | Registering       // owns a key, about to insert it
    | Inserted          // in the map, not yet counted
    | Silent            // counted, has not announced itself
    | Joining(it: Iter)
    | Open              // announced, in its serve loop
    | Messaging(it: Iter)
    | Departing(it: Iter)
    | Releasing         // about to remove its entry
    | Removed           // about to decrement the counter
    | Closing           // about to drop its mailbox
    | Gone

  datatype Actor = Actor(stage: Stage, key: Option<Key>, claim: Option<nat>, mail: Mailbox)

  /** A broadcast begun: by whom, which frame, what caused it, when, and who held the name then. */
  datatype Pub = Pub(sid: Sid, frame: ServerFrame, cause: nat, at: real, holder: Option<Sid>)

  /** `registry` maps a name to its entry, `claims` lists all entries ever inserted in order. */
  datatype Hub = Hub(
    registry: map<Str, nat>,
    claims: seq<Entry>,
    occupancy: int,
    nextAlloc: nat,
    pubs: seq<Pub>,
    actors: seq<Actor>)

  const EMPTY_MAILBOX := Mailbox(true, [], 0, [], 0, 0, 0)
  const NEWCOMER := Actor(Idle, None, None, EMPTY_MAILBOX)
  const EMPTY_HUB := Hub(map[], [], 0, 0, [], [])

  predicate Holding(st: Stage) {
    st.Inserted? || st.Silent? || st.Joining? || st.Open? || st.Messaging? || st.Departing? || st.Releasing?
  }

  predicate Counted(st: Stage) {
    st.Silent? || st.Joining? || st.Open? || st.Messaging? || st.Departing? || st.Releasing? || st.Removed?
  }

  predicate Casting(st: Stage) { st.Joining? || st.Messaging? || st.Departing? }

  /** Joined and not yet departing. */
  predicate Announced(st: Stage) { st.Joining? || st.Open? || st.Messaging? }

  /** The entry inserted `i`-th is in the map. */
  predicate Present(h: Hub, i: nat) {
    i < |h.claims| && h.claims[i].key.name in h.registry && h.registry[h.claims[i].key.name] == i
  }

  function PresentClaims(h: Hub): set<nat> { set i | 0 <= i < |h.claims| && Present(h, i) }

  /** The user a broadcast frame is about. */
  function About(f: ServerFrame): Option<Str> {
    match f
    case Joined(u) => Some(u)
    case Departed(u) => Some(u)
    case Message(from, _) => Some(from)
    case _ => None
  }

  /** `try_send`. */
  function Offer(m: Mailbox, x: Item): Mailbox {
    var m := m.(offered := m.offered + 1);
    if !m.open then m.(lost := m.lost + [x.pub], closed := m.closed + 1)
    else if |m.enq| - m.taken >= SESSION_QUEUE_DEPTH then m.(lost := m.lost + [x.pub], full := m.full + 1)
    else m.(enq := m.enq + [x])
  }

  // ----- steps -----

  datatype Event =
    | Spawn
    | MakeKey(s: Sid, name: Str)
    | Insert(s: Sid)
    | Add(s: Sid)
    | Publish(s: Sid, frame: ServerFrame, cause: nat, at: real)
    | Visit(s: Sid, i: nat)
    | EndCast(s: Sid)
    | GiveUp(s: Sid)
    | Remove(s: Sid)
    | Sub(s: Sid)
    | Close(s: Sid)
    | Take(s: Sid)

  predicate At(h: Hub, s: Sid) { s < |h.actors| }

  function NameOf(h: Hub, s: Sid): Str
    requires At(h, s) && h.actors[s].key.Some?
  {
    h.actors[s].key.value.name
  }

  predicate MayPublish(a: Actor, frame: ServerFrame) {
    && a.key.Some?
    && match a.stage
       case Silent => frame == Joined(a.key.value.name)
       case Open => frame == Departed(a.key.value.name) || (frame.Message? && frame.from == a.key.value.name)
       case _ => false
  }

  predicate Eligible(h: Hub, it: Iter, i: nat) { i in it.start || it.from <= i < |h.claims| }

  predicate Finished(h: Hub, it: Iter) {
    forall i :: i in it.start && Present(h, i) ==> i in it.seen
  }

  predicate Enabled(h: Hub, ev: Event) {
    match ev
    case Spawn => true
    case MakeKey(s, _) => At(h, s) && h.actors[s].stage == Idle
    case Insert(s) => At(h, s) && h.actors[s].stage == Registering && h.actors[s].key.Some?
    case Add(s) => At(h, s) && h.actors[s].stage == Inserted
    case Publish(s, frame, _, _) => At(h, s) && MayPublish(h.actors[s], frame)
    case Visit(s, i) =>
      && At(h, s) && Casting(h.actors[s].stage) && h.actors[s].key.Some?
      && h.actors[s].stage.it.pub < |h.pubs|
      && i < |h.claims| && At(h, h.claims[i].addr)
      && Eligible(h, h.actors[s].stage.it, i) && i !in h.actors[s].stage.it.seen
    case EndCast(s) => At(h, s) && Casting(h.actors[s].stage) && Finished(h, h.actors[s].stage.it)
    case GiveUp(s) => At(h, s) && h.actors[s].stage == Silent
    case Remove(s) => At(h, s) && h.actors[s].stage == Releasing && h.actors[s].key.Some?
    case Sub(s) => At(h, s) && h.actors[s].stage == Removed
    case Close(s) => At(h, s) && h.actors[s].stage == Closing
    case Take(s) => At(h, s) && h.actors[s].stage == Open && h.actors[s].mail.taken < |h.actors[s].mail.enq|
  }

  function SetActor(h: Hub, s: Sid, a: Actor): Hub
    requires At(h, s)
  {
    h.(actors := h.actors[s := a])
  }

  function SetStage(h: Hub, s: Sid, st: Stage): Hub
    requires At(h, s)
  {
    SetActor(h, s, h.actors[s].(stage := st))
  }

  function SetMail(h: Hub, s: Sid, m: Mailbox): Hub
    requires At(h, s)
  {
    SetActor(h, s, h.actors[s].(mail := m))
  }

  /** `compute`: insert unless the name is taken. The session that loses ends unregistered. */
  function InsertStep(h: Hub, s: Sid): Hub
    requires Enabled(h, Insert(s))
  {
    var key := h.actors[s].key.value;
    if key.name in h.registry then SetStage(h, s, Gone)
    else
      var i := |h.claims|;
      SetActor(h.(registry := h.registry[key.name := i], claims := h.claims + [Entry(key, s)]),
               s, h.actors[s].(stage := Inserted, claim := Some(i)))
  }

  function Casts(it: Iter, frame: ServerFrame): Stage {
    match frame
    case Joined(_) => Joining(it)
    case Departed(_) => Departing(it)
    case _ => Messaging(it)
  }

  function HolderOf(h: Hub, name: Str): Option<Sid> {
    if name in h.registry && h.registry[name] < |h.claims| then Some(h.claims[h.registry[name]].addr) else None
  }

  function PublishStep(h: Hub, s: Sid, frame: ServerFrame, cause: nat, at: real): Hub
    requires Enabled(h, Publish(s, frame, cause, at))
  {
    var it := Iter(|h.pubs|, PresentClaims(h), |h.claims|, {});
    SetStage(h.(pubs := h.pubs + [Pub(s, frame, cause, at, HolderOf(h, NameOf(h, s)))]), s, Casts(it, frame))
  }

  function MarkSeen(st: Stage, i: nat): Stage
    requires Casting(st)
  {
    match st
    case Joining(it) => Joining(it.(seen := it.seen + {i}))
    case Messaging(it) => Messaging(it.(seen := it.seen + {i}))
    case Departing(it) => Departing(it.(seen := it.seen + {i}))
  }

  /** `Arc::ptr_eq`: the sender's own key and the entry's are one allocation. */
  predicate SamePointer(h: Hub, s: Sid, i: nat)
    requires At(h, s) && h.actors[s].key.Some? && i < |h.claims|
  {
    h.claims[i].key.alloc == h.actors[s].key.value.alloc
  }

  /** One turn of the broadcast loop: skip the entry whose key is the sender's own allocation,
      offer the frame to any other. */
  function VisitStep(h: Hub, s: Sid, i: nat): Hub
    requires Enabled(h, Visit(s, i))
  {
    var st := h.actors[s].stage;
    var h' := SetStage(h, s, MarkSeen(st, i));
    if SamePointer(h, s, i) then h'
    else
      var t := h.claims[i].addr;
      SetMail(h', t, Offer(h'.actors[t].mail, Item(st.it.pub, h.pubs[st.it.pub].frame)))
  }

  /** `ClaimHandle::drop`, first half: remove by name; count down only if something was removed. */
  function RemoveStep(h: Hub, s: Sid): Hub
    requires Enabled(h, Remove(s))
  {
    var name := NameOf(h, s);
    if name in h.registry then SetStage(h.(registry := h.registry - {name}), s, Removed)
    else SetStage(h, s, Closing)
  }

  function Next(h: Hub, ev: Event): Hub
    requires Enabled(h, ev)
  {
    match ev
    case Spawn => h.(actors := h.actors + [NEWCOMER])
    case MakeKey(s, name) =>
      SetActor(h.(nextAlloc := h.nextAlloc + 1), s,
               h.actors[s].(stage := Registering, key := Some(Key(name, h.nextAlloc))))
    case Insert(s) => InsertStep(h, s)
    case Add(s) => SetStage(h.(occupancy := h.occupancy + 1), s, Silent)
    case Publish(s, frame, cause, at) => PublishStep(h, s, frame, cause, at)
    case Visit(s, i) => VisitStep(h, s, i)
    case EndCast(s) => SetStage(h, s, if h.actors[s].stage.Departing? then Releasing else Open)
    case GiveUp(s) => SetActor(h, s, h.actors[s].(stage := Releasing, mail := h.actors[s].mail.(open := false)))
    case Remove(s) => RemoveStep(h, s)
    case Sub(s) => SetStage(h.(occupancy := h.occupancy - 1), s, Closing)
    case Close(s) => SetActor(h, s, h.actors[s].(stage := Gone, mail := h.actors[s].mail.(open := false)))
    case Take(s) => SetMail(h, s, h.actors[s].mail.(taken := h.actors[s].mail.taken + 1))
  }

  // ----- runs -----

  predicate ValidRun(h: Hub, evs: seq<Event>)
    decreases |evs|, 0
  {
    evs == [] || (ValidRun(h, evs[..|evs| - 1]) && Enabled(Run(h, evs[..|evs| - 1]), evs[|evs| - 1]))
  }

  function Run(h: Hub, evs: seq<Event>): Hub
    requires ValidRun(h, evs)
    decreases |evs|, 1
  {
    if evs == [] then h else Next(Run(h, evs[..|evs| - 1]), evs[|evs| - 1])
  }
}
