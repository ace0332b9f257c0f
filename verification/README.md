# A verified model of the whisper chat server

Whisper is a chat room over TCP: clients send length-delimited Postcard frames, one session per
connection reads them, and a shared hub fans frames out to one bounded mailbox per session. This
project models the server as a concurrent protocol, with the wire codec and the rate limiter under
it, and proves what it promises over every interleaving, every byte stream and every client.

`dafny verify dfyconfig.toml` checks the whole project.

## How the model is built

**Wire.** `Utf8`, `Postcard` and `Frames` give the payload bytes of every frame concretely, after
the Postcard Wire Format (varint integers, tagged unions, strings) and sections 3 and 4 of RFC 3629;
`WireLayout` gives them in figures. `Codec` adds the length prefix and the decoder as functions on
byte strings; `PostcardCodec` holds the codec as the source runs it, in place on a growing buffer.

**Rate limiter.** `TokenBucket` is the bucket's arithmetic over whole call histories, in exact
reals; `RateLimiter` is the object that updates its fields on every call.

**Hub.** `HubMachine` is a step machine. Map insertion, counter increment, each visited entry of a
broadcast, map removal and counter decrement are separate steps, so every interleaving of sessions
is a run. A key has a name and an allocation, because the broadcast compares pointers and the
release compares strings. Of the map's iterator only this is assumed: an entry present throughout an
iteration is visited exactly once; any other entry at most once, and only if it was present at some
moment of it. `HubRegistry`, `HubOccupancy`, `HubBroadcasts`, `HubTalk`, `HubMailboxes`,
`HubPresence` and `HubDelivery` each prove one invariant; `HubSafety` joins them over all runs and
states the theorems. An invariant named in a row below (`RegistryOk`, `OccupancyOk`) is part of
`HubSafety.Inv`, which holds of every reachable state by `HubSafety.Safety`. `HubObject` is the hub
as an object with a map, a counter and mailboxes, whose calls, from the arrival of a session to the
closing of its mailbox, are proved to be runs of the machine.

**Session.** `SessionLoop` says what one session decides: its answer to the first frame and its
reaction to each arm of the select. `SessionLaws` says outright whom a session lets in and how its
loop answers whatever comes. `SessionTrace` proves the heartbeat and flood bounds over all
sequences of turns. `SessionRuns` describes whole sessions as functions of what they meet, failed and
cut-off writes included, and `SessionObject` is the session as an object with loops and branches,
proved to do exactly that.

**Server.** `ServerMachine` puts the accept loop, every session's program counter, its reader, its
writes, the clock and the hub into one step machine; the environment lets time pass, delivers
payloads, hangs up, cancels, and lets each write complete or fail after any number of bytes.
`ServerSessions`, `ServerSafety` and `ServerMessages` prove its invariant over all runs;
`ServerTheorems`, `ServerShutdown`, `ServerDrain` and `ServerUnaided` state the theorems.
`ServerLaws` says what the environment and the timers may do and what a session must; `ServerReads`
that nothing read is skipped or handled out of order. `ServerLives` and `ServerRefinesSession` close
the circle: every session of every run lives one of the lives of `SessionRuns`, which are those of
the session object. `ServeObject` is the accept loop and the drain as a method, and
`ServerRefinesServe` shows that the machine accepts as that method does.

Two places where the model follows the code and not its documentation:

- `ARCHITECTURE.md:131` says that all session awaits race the cancellation token, so that a stalling
  peer cannot delay a shutdown. Session writes do not race it
  (`server/src/actor/session.rs:178-182`, `268-271`, `276-282`), and only the goodbye has a time
  limit (`209-217`). `ServerDrain.HungPeerHoldsShutdown` gives a run in which a cancelled server is
  held up by a pending write. `ServerUnaided.ShutdownNeedsNoPeer` says exactly when a cancelled
  server can return without any write completing or failing: when no session is writing, or on its
  way to write, anything but the goodbye. `ShutdownRacesOnlyGoodbye` and `TimeFreesOnlyGoodbye` say
  which sessions can take their next step by themselves. Termination is therefore proved under the
  hypothesis that writes complete or fail.
- `server/src/actor/ratelimit.rs:36-38` says that a rejected call leaves the state alone. It moves
  `tokens` and `last_refill` (lines 42-43): `TokenBucket.RejectionMayMoveBucket` gives a call that
  moves both, `RejectionKeepsBucket` says exactly when a rejected call moves neither, and
  `RejectionsLeaveNoTrace` shows that no later answer can tell.

## Model

| member | source | states |
|---|---|---|
| Utf8.DecodeEncode | protocol/src/lib.rs:84 | Encoding any sequence of scalar values gives valid UTF-8, and decoding it gives the sequence back. |
| Utf8.EncodeDecode | protocol/src/lib.rs:84 | Every valid text is the encoding of what it decodes to, so a text is exactly its bytes. |
| Utf8.Examples | protocol/src/lib.rs:84 | The examples of section 7 of RFC 3629, octet by octet. |
| Utf8.Forbidden | protocol/src/lib.rs:382 | Overlong forms, surrogates, values beyond U+10FFFF and stray tail octets are no text, whatever follows. |
| Postcard.VarintRoundTrip | protocol/src/lib.rs:394 | A varint within the range of its width is read back as it was written, whatever follows it. |
| Postcard.VarintInRange | protocol/src/lib.rs:382 | Whatever bytes arrive, a varint that is accepted lies within the range of its width. |
| Postcard.U32RoundTrip | protocol/src/lib.rs:107 | Every 32-bit number is read back as it was written, and exactly its own bytes are consumed. |
| Postcard.StrRoundTrip | protocol/src/lib.rs:89 | Every text is read back as it was written, and exactly its own bytes are consumed. |
| WireLayout.VarintLayout | protocol/src/lib.rs:394 | A varint's octets hold seven bits each, the least significant first; all but the last have the top bit set, and none is wasted. |
| WireLayout.VarintExamples | protocol/src/lib.rs:382 | In figures: padding is accepted; a sixth octet, a thirty-third bit and a cut varint are refused. |
| WireLayout.ServerLayout | protocol/src/lib.rs:101-138 | Every server frame on the wire in figures: four octets of length, the most significant first, then 0 to 6 for Welcome to Error, then the fields in order, each text with its length in one or two octets. |
| WireLayout.ClientLayout | protocol/src/lib.rs:78-97 | Every client frame's payload in figures: 0 to 3 for Hello, Send, Pong and Leave, then version before username, or the body. |
| WireLayout.UnknownVariantsRefused | protocol/src/lib.rs:382 | A variant above 3 from a client, or above 6 from a server, is refused whatever follows it. |
| WireLayout.DecoderReads | protocol/src/lib.rs:366-384 | When the decoder waits, refuses and reads: a prefix over 8192 is refused as soon as four octets are in, with nothing consumed; a complete frame is taken off whole, malformed or not; anything less is left alone. |
| Frames.ValidateUsername | protocol/src/lib.rs:297-315 | Accepts exactly the names of 1 to 32 bytes that are all ASCII letters, digits, `_` or `-`. |
| Frames.ValidateBody | protocol/src/lib.rs:319-330 | Accepts exactly the bodies of 1 to 4096 bytes. |
| Frames.ClientRoundTrip | protocol/src/lib.rs:78-97 | Every client frame with a payload of at most 8192 bytes parses back from that payload, with any trailing bytes ignored. |
| Frames.ServerRoundTrip | protocol/src/lib.rs:101-138 | Every server frame with a payload of at most 8192 bytes parses back from that payload, with any trailing bytes ignored. |
| Frames.MessageSize | protocol/src/lib.rs:50-56 | A Message with a valid name and body has a payload of at most 4132 bytes, reached only by the longest name with the longest body, and so fits a frame. |
| Codec.GetPutU32 | protocol/src/lib.rs:399 | The four bytes of a length prefix are read back as the length, whatever follows them. |
| Codec.PrefixLayout | protocol/src/lib.rs:429-430 | The first four octets of a framed payload are its length, the most significant first, and the rest is the payload. |
| Codec.StepMonotone | protocol/src/lib.rs:366-384 | Bytes that arrive later never change a frame or an error that the decoder has already found. |
| Codec.ChunkingDoesNotMatter | protocol/src/lib.rs:366-384 | For any bytes, valid or not, in any chunks, feeding the decoder chunk by chunk gives the same frames and the same first error as parsing the whole stream, and what is held back is shorter than 4 + 8192 bytes. |
| Codec.FeedIsParse | protocol/src/lib.rs:366-384 | The same, from any buffer at which the decoder has asked for more. |
| Codec.ResidueBound | protocol/src/lib.rs:371-379 | The bytes left when the decoder asks for more are shorter than a header and the largest frame, and asking again finds nothing new. |
| Codec.FirstErrorStops | protocol/src/lib.rs:366-384 | Decoding stops at the first error: the frames before it are kept, it is the one reported, and what follows is never looked at. |
| Codec.ParseIsGrammar | protocol/src/lib.rs:366-384 | A stream decodes to a list of frames and a rest if and only if it is framed payloads that parse to those frames, followed by a rest that needs more. |
| Codec.StreamRoundTrip | protocol/src/lib.rs:387-432 | The encodings of any list of frames, followed by a proper prefix of one more, decode to exactly the list and leave exactly that prefix. |
| Codec.CutAnywhere | protocol/src/lib.rs:366-402 | An encoded list cut at any byte decodes to a prefix of the list and leaves a proper prefix of the next frame. |
| Codec.ServerInverse | protocol/src/lib.rs:409 | Server frames that fit satisfy what the round trips ask of a payload format. |
| Codec.ClientInverse | protocol/src/lib.rs:406 | Client frames that fit satisfy it too. |
| PostcardCodec.PostcardCodec.Decode | protocol/src/lib.rs:366-384 | In place, one call decodes at most one frame, and leaves, consumes or rejects exactly the bytes that one step of the stream decoder does; a prefix over 8192, the most significant octet first, is refused with nothing consumed. |
| PostcardCodec.PostcardCodec.Encode | protocol/src/lib.rs:393-402 | Succeeds exactly for payloads of at most 8192 bytes, and then appends four octets of length, the most significant first, and the payload; else it leaves the buffer alone and reports an oversize frame. |
| PostcardCodec.EncodeFrame | protocol/src/lib.rs:423-432 | Produces the very bytes that `Encode` appends, length first in network order, or the same error. |
| TokenBucket.TokensAreLeastRoom | server/src/actor/ratelimit.rs:39-50 | The tokens on hand equal the room left in the tightest window that ends now, over all window starts. |
| TokenBucket.AdmissionIsExact | server/src/actor/ratelimit.rs:39-50 | A call is admitted if and only if its cost fits the capacity and every window from an earlier call to now would still hold at most capacity plus length times rate. |
| TokenBucket.RejectionsLeaveNoTrace | server/src/actor/ratelimit.rs:36-50 | Deleting every rejected call from a history changes no later answer. |
| TokenBucket.RejectionKeepsBucket | server/src/actor/ratelimit.rs:36-50 | A rejected call leaves the limiter as it is if and only if it comes at the very moment of the call before it; it leaves the tokens as they are if and only if that is so, or else the refill rate is 0, or the bucket is full. |
| TokenBucket.RejectionMayMoveBucket | server/src/actor/ratelimit.rs:36-43 | There is a history and a rejected call after it that moves both fields. |
| TokenBucket.WindowBound | server/src/actor/ratelimit.rs:39-50 | Any window of time, between calls or not, admits at most capacity plus rate times its length. |
| TokenBucket.BackwardsEarnsNothing | server/src/actor/ratelimit.rs:41-49 | On a clock that has stood still or run backwards a call is admitted from the tokens on hand and earns nothing; the bucket counts from it all the same. |
| RateLimiter.RateLimiter.constructor | server/src/actor/ratelimit.rs:27-34 | A new limiter is a bucket with an empty history. |
| RateLimiter.RateLimiter.TryConsume | server/src/actor/ratelimit.rs:39-50 | One call answers and changes the fields as the bucket's history says, even if the clock were to run backwards. |
| HubRegistry.RegistryStep | server/src/actor/hub.rs:94-130 | Every step of every session keeps holders and map entries in one-to-one correspondence. |
| HubRegistry.RemoveFindsOwnEntry | server/src/actor/hub.rs:193-200 | A release by name finds the entry that this session inserted under this very key, never a later holder's. |
| HubBroadcasts.PointerFilterIsExact | server/src/actor/hub.rs:142-144 | An entry's key is the sender's allocation if and only if the entry is the sender's own, if and only if, while it is in the map, its name is the sender's. |
| HubBroadcasts.OneHolder | server/src/actor/hub.rs:103-106 | No two sessions hold one name at the same time. |
| HubOccupancy.OccupancyStep | server/src/actor/hub.rs:114-124 | Every step keeps the counter equal to the sessions between their add and their sub, and the map's size equal to those between insertion and removal. |
| HubOccupancy.OccupancyFollowsMap | server/src/actor/hub.rs:164-166 | The counter never underflows, equals the map's size when no registration or release is half done, and is at least 1 for a session that reads it. |
| HubMailboxes.SlowConsumerBlocksNobody | server/src/actor/hub.rs:145-158 | With a session's drains removed from a run every other step stays possible, and only that session's mailbox differs. |
| HubMailboxes.DrainTimingIsPrivate | server/src/actor/hub.rs:139-160 | Two runs that differ only in when one session drains its mailbox give every other session identical queued and dropped frames. |
| HubDelivery.DeliveryStep | server/src/actor/hub.rs:139-160 | Every step keeps this: no broadcast meets a mailbox twice, nor its publisher's at all, nor any before its entry is visited; and every entry visited has met it once, queued or lost. |
| HubSafety.Safety | server/src/actor/hub.rs:75-200 | The joint invariant holds after every run from the empty hub, whatever the interleaving. |
| HubSafety.DeliverySafety | server/src/actor/hub.rs:139-160 | That account of deliveries holds after every run from the empty hub. |
| HubSafety.PresenceConverges | server/src/actor/session.rs:87-115 | Once nobody is coming or going, a session whose mailbox never overflowed has Joined as its last word about everyone who registered after it, is never left with Departed about anyone registered, and has Departed or nothing about every free name. |
| HubSafety.ClaimsMatchEntries | server/src/actor/hub.rs:98-124 | In every reachable state holders and map entries match one to one, by name, by key allocation and by mailbox. |
| HubSafety.DeliveryIsFaithful | server/src/actor/hub.rs:139-160 | Every queued frame is another session's broadcast, unchanged, begun while it held the name the frame is about; no broadcast is queued twice for one recipient; frames about one name keep broadcast order across its holders. |
| HubSafety.BroadcastLeavesOutNobody | server/src/actor/hub.rs:139-160 | The owner of every entry a broadcast has visited, and by its end of every entry there throughout, has met its frame exactly once: it is in the mailbox, or was lost to it; frames lost earlier or later make no difference. The sender has not met it. |
| HubSafety.VisitReaches | server/src/actor/hub.rs:141-158 | A visit adds the frame to an open mailbox in which fewer than 256 wait, and nothing is lost; a full or closed one loses this frame and no other; the sender's own and every other mailbox are untouched. |
| HubSafety.NamesTalkInTurn | server/src/actor/session.rs:91-113 | The broadcasts under a name, across all its holders, are a prefix of (Joined Message* Departed)*, open exactly while an announced session holds the name. |
| HubSafety.JoinedMatchedByDeparted | server/src/actor/session.rs:94-108 | By the time a session is gone it has published equally many Joined and Departed, none or one, in that order. |
| HubSafety.MailboxConservation | server/src/actor/hub.rs:145-158 | Frames offered are those taken, waiting, dropped as full or dropped as closed, and all those dropped are listed; at most 256 wait; while the session is in its serve loop the map holds its sender, so receiving cannot report the end. |
| HubObject.Channel.TrySend | server/src/actor/hub.rs:145-158 | Appends the frame, or leaves the queue alone and says that it is full or closed. |
| HubObject.Hub.constructor | server/src/actor/hub.rs:77-84 | A new hub is the machine's empty hub. |
| HubObject.Channel.Recv | server/src/actor/session.rs:262-263 | Takes the oldest frame, or nothing if none is queued. |
| HubObject.Channel.Close | server/src/actor/mailbox.rs:30-32 | A channel without its receiver is closed; what was queued stays unread. |
| HubObject.Hub.NewKey | server/src/actor/session.rs:165 | Undisturbed, the arrival of a session with a name is a spawn and a fresh key of the machine, ready to be registered. |
| HubObject.Hub.TryRegister | server/src/actor/hub.rs:94-130 | Undisturbed, it is the machine's insertion and add; it succeeds if and only if the name is free, and otherwise changes nothing. |
| HubObject.Hub.Drop | server/src/actor/hub.rs:193-200 | Undisturbed, it is the machine's removal and sub: exactly one entry goes, and the counter falls by one. |
| HubObject.Hub.Visit | server/src/actor/hub.rs:141-158 | One turn of the broadcast loop is one visit of the machine; it appends the frame to that entry's mailbox if that is open with fewer than 256 frames waiting, unless the pointers are equal. |
| HubObject.Hub.Broadcast | server/src/actor/hub.rs:139-160 | Undisturbed, the loop is a run of one publication, one visit for each entry and an end; every open mailbox but the sender's in which fewer than 256 frames wait gets the frame, once, at its end, and every other is left as it is. |
| HubObject.Hub.Recv | server/src/actor/session.rs:262-263 | While the session's entry stands, receiving is the machine's take of the oldest frame, or changes nothing if none is queued. |
| HubObject.Hub.GiveUp | server/src/actor/session.rs:178-182 | A session whose Welcome fails closes its mailbox while its entry still stands, and can then only be removed. |
| HubObject.Hub.Close | server/src/actor/session.rs:111-113 | Once its entry is gone, closing a session's mailbox is the machine's last step for it and touches no other. |
| HubObject.Sojourn | server/src/actor/session.rs:87-115 | From any state of the hub, a whole undisturbed session is let in if and only if its name is free, and leaves the map and the counter as it found them. |
| HubObject.Hub.Occupancy | server/src/actor/hub.rs:164-166 | Reads the machine's counter. |
| SessionLoop.HandshakeFits | server/src/actor/session.rs:133-182 | Every answer to any decoded first frame fits a frame, and an accepted name is valid, with Rejected, Welcome, Joined and Departed frames that fit. |
| SessionLoop.ReactionFits | server/src/actor/session.rs:201-287 | Every frame the serve loop writes or broadcasts fits, so no encoding in it fails, and a broadcast is a Message from this very user. |
| SessionTrace.IdleSessionEnds | server/src/actor/session.rs:274-283 | If the timer last fired at most `period` ago and nothing was read for longer than the idle timeout plus `period`, some turn has ended the loop. |
| SessionTrace.TalkerIsNeverIdle | server/src/actor/session.rs:187-193 | If every tick comes within the idle timeout of the one before, the loop's start included, with a frame read in between, no tick disconnects. |
| SessionTrace.FloodBound | server/src/actor/session.rs:194-243 | Whatever the client sends, any window of time sees at most burst plus refill rate times its length broadcasts. |
| SessionTrace.InvalidBodyChangesNothing | server/src/actor/session.rs:223-231 | A Send with an invalid body is answered with the error that describes it; whatever turns come later, the limiter ends in the same state, the same turns broadcast, and every turn but a tick is answered as if that Send had never come. |
| SessionLaws.LetInExactly | server/src/actor/session.rs:117-184 | The handshake lets a name in if and only if there was no shutdown, the first frame is a Hello of version 1 with that name, of 1 to 32 letters, digits, `_` or `-`, the name is free, and its Welcome gets out. |
| SessionLaws.EveryoneIsAnswered | server/src/actor/session.rs:133-182 | A first frame that asks rightly for a free name is answered with a Welcome that greets it by name and carries the occupancy; every other first frame with Rejected; a shutdown, a timeout, the end of the stream and garbage with nothing. |
| SessionLaws.PoliteAndBroken | server/src/actor/session.rs:219-250 | Leave and the end of the stream end the loop without an error, garbage with one, and Pong changes nothing; nothing is written or broadcast, whatever else is ready. |
| SessionLaws.SecondHello | server/src/actor/session.rs:250-258 | A second Hello is answered with an Error and ends the loop with an error. |
| SessionLaws.SendIsAnswered | server/src/actor/session.rs:223-245 | A body that is not of 1 to 4096 bytes is answered with an Error; any other is broadcast, signed and unchanged, if and only if every window from an earlier Send allows one more, and else answered with an Error; only a broken write ends the loop. |
| SessionLaws.MailBeforeTick | server/src/actor/session.rs:262-272 | With nothing to read, a queued frame is written before the timer is heard; a broken write ends the loop with an error, the end of the mailbox without. |
| SessionLaws.TickLast | server/src/actor/session.rs:274-283 | With nothing else ready, a tick within the idle timeout of the last frame read writes a Ping, and a later one says so and ends the loop. |
| SessionLaws.NothingReady | server/src/actor/session.rs:201-202 | With nothing ready nothing happens. |
| SessionRuns.ShutdownComesFirst | server/src/actor/session.rs:207-217 | The first poll that sees the shutdown ends the loop without an error, whatever else is ready, with nothing broadcast and the goodbye written as far as it gets. |
| SessionRuns.IdleLoopReturns | server/src/actor/session.rs:274-283 | The session object's loop cannot still be running once its client has been silent for the idle timeout plus the time since the last tick. |
| SessionRuns.BroadcastsArePosts | server/src/actor/session.rs:237-243 | What the loop hands to the hub is the encodings of its Messages, all from this user and all small enough, in order. |
| SessionRuns.LoopIsNoFlood | server/src/actor/session.rs:194-243 | The loop hands the hub at most burst plus refill rate times its age. |
| SessionRuns.ClientFollowsLoop | server/src/actor/session.rs:262-296 | The client can always decode what the loop writes; while the loop runs it sees exactly the frames of its turns, and afterwards all but possibly the last. |
| SessionRuns.LifeIsBracketed | server/src/actor/session.rs:87-115 | A session that is let in broadcasts Joined, then its Messages, then Departed however its loop returns; one that is not, even if only its Welcome could not be written, broadcasts nothing. |
| SessionObject.Session.SendFrame | server/src/actor/session.rs:289-296 | Writes the frame's bytes, or as many as reached the peer, and succeeds if and only if the frame fits and the write completes. |
| SessionObject.Session.Handshake | server/src/actor/session.rs:117-184 | Lets in exactly the names `LetIn` says and writes exactly the answer: nothing on shutdown, timeout, disconnect or garbage, else Rejected or Welcome. |
| SessionObject.Session.HandleFrame | server/src/actor/session.rs:219-260 | One frame read changes the limiter, the wire and the broadcasts, and ends the loop or not, as the loop's reaction to it says. |
| SessionObject.Session.Pass | server/src/actor/session.rs:201-285 | One pass through the biased select does what the reaction to the chosen arm says, and nothing if no arm is ready. |
| SessionObject.Session.ServeLoop | server/src/actor/session.rs:186-287 | Over any polls the loop writes, broadcasts and returns as the fold of its turns says. |
| SessionObject.Session.Run | server/src/actor/session.rs:87-115 | A whole session writes, broadcasts and returns as `Life` says, Departed included when the loop fails. |
| ServerTheorems.ServerRefinesHub | server/src/actor/session.rs:87-115 | Every run of the server, seen from the hub, is a run of the hub machine, so the hub's theorems hold of the server. |
| ServerTheorems.ClientSeesWholeFrames | server/src/actor/session.rs:133-183 | At every moment, even in the middle of a write, a client decodes exactly the frames written whole and holds back exactly the bytes of one unfinished frame; the first is Welcome or Rejected, neither comes later, and nothing follows Rejected. |
| ServerTheorems.MailboxAccounts | server/src/actor/session.rs:262-272 | Every frame offered to a mailbox was written to the client, is in the middle of a write, is waiting or was dropped; those written come first, in queue order; at most 256 wait; a session at its select is never told that its mailbox has ended. |
| ServerTheorems.MessageProvenance | server/src/actor/session.rs:219-245 | Every queued Message comes from a Send with that very body of 1 to 4096 bytes, read by another session that held the name it is signed with; each Send reaches a recipient at most once, and one sender's messages in the order in which they were read. |
| ServerTheorems.RoomIsNotFlooded | server/src/actor/session.rs:194-243 | Over whole server runs, any window of time sees at most burst plus refill rate times its length messages from one session. |
| ServerTheorems.SilentSessionIsOut | server/src/actor/session.rs:274-283 | While its last tick is at most `period` ago, a session that has read nothing for longer than the idle timeout plus `period` is not in its serve loop. |
| ServerTheorems.TalkingSessionStaysIn | server/src/actor/session.rs:274-283 | A session whose ticks are close enough and separated by frames read has never been disconnected as idle. |
| ServerSafety.Safety | server/src/actor/session.rs:87-296 | After every run each session's program counter agrees with its stage in the hub, its bytes with its frames, its mailbox with its wire, and its timers with its turns. |
| ServerRefinesSession.EverySessionIsALife | server/src/actor/session.rs:87-296 | In every reachable state of the server, at every byte of its writes, each session has written the bytes, taken the turns and broadcast the frames of a session object that met the same first frame, if any; all of them once it has ended. One that ended unanswered read something that is no frame, or nothing: then it was cancelled, or its Hello timeout had passed. |
| ServerReads.EverythingIsReadInOrder | server/src/actor/session.rs:219-221 | In every reachable state a session has handled, in order, exactly what it has read after its first frame, but for the one thing it may be about to handle. |
| ServerLaws.ArrivalsAreDecoded | server/src/actor/session.rs:219-221 | A payload is read as the frame it parses to, or as garbage, and the end of the stream as such, each once and in order of arrival. |
| ServerLaws.HelloInOrder | server/src/actor/session.rs:118-131 | Before its Hello a session is ended by shutdown whatever has arrived, and else reads exactly when something has. |
| ServerLaws.HelloDecides | server/src/actor/session.rs:117-163 | A first frame leads to registration exactly if it is a Hello of version 1 with a valid name, which becomes the session's; any other frame to Rejected; anything else to the end. |
| ServerLaws.RegisterDecides | server/src/actor/session.rs:165-175 | A name in the map is rejected and the map left alone; a free one becomes the session's. |
| ServerLaws.GreetSays | server/src/actor/session.rs:177-182 | Welcome greets the user by name and carries the hub's count at that moment, as far as 32 bits go. |
| ServerLaws.SelectInOrder | server/src/actor/session.rs:202-283 | At its select a session serves the shutdown, else the oldest frame not read, else the oldest frame in its mailbox, else the timer, and waits if and only if there is none. |
| ServerLaws.HelloTimeoutFires | server/src/actor/session.rs:120-131 | A client that says nothing may be dropped exactly from the moment its Hello timeout is over. |
| ServerLaws.GoodbyeTimeoutFires | server/src/actor/session.rs:209-217 | The goodbye may be cut off exactly from the moment its time is over, after any number of its bytes; no other write ever may. |
| ServerLaws.WritesMayEnd | server/src/actor/session.rs:289-296 | Whatever a session is writing may be written whole, or fail after any number of its bytes. |
| ServerLaws.EnvironmentIsFree | server/src/lib.rs:86-119 | The environment is unrestricted: time, shutdown, any payload of at most 8192 bytes, hanging up, and accepts that succeed or fail while the server listens and is not cancelled. |
| ServerLaws.SpawnStartsFresh | server/src/lib.rs:109-118 | A new session begins at the present moment, before its Hello, with nothing read or written. |
| ServerLaws.ClockIsRecorded | server/src/actor/session.rs:187-197 | The loop begins when Joined has been broadcast, and every turn is recorded at its moment. |
| ServerLaws.IteratorIsFree | server/src/actor/hub.rs:140-141 | A broadcast may visit any entry it has not, there at its beginning or come since, and may end exactly when it has seen all that were there then and still are. |
| ServerLives.LivesSafety | server/src/actor/session.rs:87-296 | After every run each session's turns account for every frame it wrote and for its end, its first frame answers the first it read, and it has said its last word if it is done. |
| ServerShutdown.ShutdownTerminates | server/src/lib.rs:86-125 | From the moment of cancellation, wherever the accept loop and the sessions are, any run takes at most `Budget` further steps of the server's own, whatever clients send and however long it lasts. |
| ServerShutdown.BudgetStep | server/src/lib.rs:86-125 | Once cancelled, every step of the accept loop or of a session spends some of the budget, and nothing from outside changes it. |
| ServerUnaided.ShutdownNeedsNoPeer | server/src/lib.rs:86-125 | A cancelled server that has not returned can still return without any write completing or failing if and only if no session is doomed, that is, writing or on its way to write anything but the goodbye; and then it can though its clients do nothing at all. |
| ServerUnaided.DoomHoldsServer | server/src/actor/session.rs:133-296 | In any run in which none of its writes completes or fails a doomed session stays doomed, and `serve` does not return, cancelled or not. |
| ServerUnaided.MustWriteMeans | server/src/actor/session.rs:219-283 | The turns counted as bound to write are exactly those that write at whatever later time they are handled. |
| ServerDrain.ShutdownRacesOnlyGoodbye | server/src/actor/session.rs:201-296 | After cancellation a session that has not ended can take its next step without its peer if and only if it is not writing, or is writing the goodbye and its time is over. |
| ServerDrain.TimeFreesOnlyGoodbye | server/src/actor/session.rs:209-217 | After cancellation the passing of time alone lets a session take its next step if and only if it is not writing, or is writing the goodbye. |
| ServerDrain.PendingWriteHoldsServer | server/src/actor/session.rs:289-296 | In any run in which a pending write other than the goodbye neither completes nor fails, its session stays where it is and `serve` does not return, cancelled or not. |
| ServerDrain.HungPeerHoldsShutdown | server/src/actor/session.rs:133-140 | A cancelled server that is held up in this way is reachable under every configuration. |
| ServerDrain.SessionNeverStuck | server/src/actor/session.rs:117-296 | A session that has not ended and is not waiting can take its next step, so every frame it encodes fits and every hub operation is possible; after cancellation none waits. |
| ServerDrain.ShutdownNeverStuck | server/src/lib.rs:86-125 | After cancellation the server can take a step until it has returned. |
| ServerDrain.DrainIsBounded | server/src/lib.rs:86-125 | In numbers: from the moment of cancellation a server with `n` sessions takes at most `n * (21 * n + 41) + 3` further steps of its own in any run, whatever clients do. |
| ServerDrain.OneLastMessage | server/src/actor/session.rs:201-217 | After cancellation a session broadcasts at most one further Message. |
| ServerDrain.ServeLeavesNothing | server/src/lib.rs:121-125 | When `serve` has returned every session has ended, the map is empty, the counter is 0, and every Joined has had its Departed. |
| ServeObject.FirstEnd | server/src/lib.rs:86-104 | The accept loop is left at the first shutdown or failed accept, and no earlier. |
| ServeObject.LeftAtFirst | server/src/lib.rs:86-104 | The loop is left by the first poll that meets a shutdown or a failed accept, and as stopped whenever that poll meets a shutdown, whatever else it meets. |
| ServeObject.Serve | server/src/lib.rs:78-126 | One session for every connection accepted before the first shutdown or failed accept and none after, though one be waiting at that very poll; shutdown wins; every session is joined exactly once before the result is returned. |
| ServerRefinesServe.AcceptLoopIsServe | server/src/lib.rs:86-125 | In every run of the server machine the sessions are exactly the peers that the accept loop spawns from the same polls, in order, and the server listens, stops or fails as the loop does. |
| ServeObject.LateConnectionsIgnored | server/src/lib.rs:90-95 | Nothing that happens after the loop is left changes who is served or what is returned. |

## Left out

- Sockets, `set_nodelay`, signals, tracing, command lines and both `main.rs` files: a write is a step that completes, or fails after some of its bytes, or, if it is the goodbye, is cut off when its time is over; in `SessionObject` a goodbye that is cut off counts as one that fails.
- The client and its REPL (`client/src`): the client appears as a decoder of what it is sent and a source of payloads.
- The internals of papaya, tokio's channels, `select!` and `FramedRead`: their contracts are used, that is, atomic insert-or-abort, a bounded queue with `try_send`, a biased choice, a buffer kept across cancelled reads.
- Weak memory: the counter's relaxed atomics are interleaved steps.
- Floating point: rates, times and tokens are exact reals, so rounding, NaN and infinities are not modelled; the configuration requires finite non-negative values.
- Timers as such: when the ticker fires is up to the environment, and the heartbeat theorems take the distance between ticks as a hypothesis.
- Liveness without conditions: the select is biased, so a busy reader can starve the mailbox and a busy mailbox the ticker; nothing is claimed to happen eventually except under shutdown, where writes are assumed to complete or fail.
- Encoding after decoding as an identity on bytes: trailing payload bytes and overlong varints are accepted and lost, as in the source.
- `Deserialize` and newtype code of `UserName` and `MessageBody`: the session uses the string frames and the validators.
- A partial frame at the end of the stream: in `ServerMachine` the reader hands over whole payloads or the end of the stream, and how bytes become payloads is proved in `Codec`.
- 32-bit hosts: a string's length is a 64-bit varint.
- Per-name rate limits: there are none in the source; a reconnecting user starts with a full bucket.
- Panics and their clean-up: release builds abort.
- Memory: reference counts, allocations, lock freedom, and the number of finished tasks kept until the drain.
- HubObject.Hub.TryRegister: the object's calls run undisturbed, one after another; interleavings are the business of `HubMachine`. The same goes for Drop, Visit and Broadcast.
- SessionObject.Session.Handshake: whether the name is taken, and the occupancy, are given to it; `ServerMachine` connects them to the hub.
- PostcardCodec.PostcardCodec.Encode: reserving capacity is not modelled.
