# Verified models of the ZAICODE core

This project models the stateful and the law-bearing parts of the repository in Dafny and proves what they are for:
reliable delivery over connections that break, refresh loops that lose no request, an expression language whose texts
compile back to what was printed, merge patches whose order does not matter, a lease shared by processes, an order kept
over two owners, and command-line quoting. Code that works by changing fields is modelled by classes and loops; each
method is proved equal to a function on values, and the laws are proved about these functions over every input or run.

Six cores, each independent of the others:

1. **Reliable RPC transport** (`Buffers`, `Framing`, `Persistence`, `SessionHistory`, `PersistentNetwork`,
   `OctetNetwork`, `Quantities`, `Serialization`, `CodecWitness`, `ChannelMessages`, `ChannelClient`,
   `ChannelProgress`, `ChannelServer`, `ChannelNetwork`, `ChannelStack`). Chunks become frames; two persistent
   endpoints exchange messages over a growing list of connections, and whatever was unread on a replaced one is lost;
   values are encoded and decoded; requests are answered. A receiver does not drop repeats, so delivery is at least once
   and without gaps: the bodies fired, repeats removed, are a prefix of the bodies sent, from octets that arrive in
   any portions on. The lanes between channel client and server lose and repeat messages, and every run of the two on
   top of the endpoints is a run of these lanes.
2. **Coalescing refresh loops** (`RefreshWaiters`, `RegistryRefresh`, `AccountRefresh`). Every `await` ends a step, and
   so does the end of the loop promise before its handler runs.
3. **Option-map language** (`CelTokens`, `CelTokenizer`, `CelParser`, `CelPrinter`, `CelRoundTrip`,
   `CelMinimality`, `CelSource`, `CelPrecedence`, `CelLiterals`, `CelWords`, `CelErrors`, `MergePatch`). The printer
   with the fewest parentheses is part of this project, not of the repository; expressions are compared without their
   offsets. What binds tighter, which character means what and which error is reported is stated over the characters
   themselves, not over the parser's tables.
4. **Multi-process configuration refresh** (`RefreshLease`, `BuiltinSource`). Each body under a file lock is one step;
   all processes read one clock that does not run backwards.
5. **Ordered membership and the registry** (`OwnedOrder`, `ModelMembership`, `ProviderRegistry`).
6. **Windows argument quoting** (`Quoting`), against the parsing rule of the Microsoft C runtime: before a quotation
   mark 2n backslashes stand for n and the mark delimits, 2n + 1 stand for n and the mark is itself, and two marks
   inside a quoted part are one.

`Outcomes`, `Texts`, `Sequences`, `Counting` and `Powers` hold what several of them share. `dafny verify dfyconfig.toml` checks
everything.

## What turned out conditional

These properties do not hold of the code without a condition. Each is proved to hold exactly under it.

- A printed expression comes back from the parser exactly when no array begins with the string literal `]` and no
  object has `}` for its first key, anywhere inside it: the parser compares the text of a token and not its kind when it
  looks for the end of an empty list (`CelRoundTrip.RoundTripExactlyWhenClean`, `CelSource.SourceRoundTrip`).
- The water marks work on every run exactly when the low mark is at most the high one or the replay cap leaves no room
  above the high one (`Persistence.MarksWorkExactlyWhen`).
- In-order delivery needs no bound on the number of messages; the release of the replay queue does: the
  acknowledgement of everything sent empties the queue exactly when fewer than 2^32 messages were sent
  (`PersistentNetwork.QuietLinkReleasesExactlyWhen`).
- A registry request made while a failing round is being reported, or after its loop ended and before the handler runs,
  is rejected with that round's error exactly when an error listener throws, whether the reads, the resolver or a
  change listener failed (`RegistryRefresh.NewerRequestCrashesExactlyWhen`), and a failing account round leaves the
  requests it covers without an answer exactly when an error listener throws and none disposes the service
  (`AccountRefresh.FailingRoundStrandsExactlyWhen`).
- The record holds one lease for all endpoints. While a lease is live, a second one on its own endpoint can be had
  exactly when another endpoint was given a lease in between, which is when the record names the first no more
  (`RefreshLease.SecondLeaseExactlyWhen`, `RefreshLease.OneEndpointTwoLeases`). Mutual exclusion holds on runs in which
  all processes resolve one endpoint (`RefreshLease.AtMostOneLiveLease`).
- At one revision the content of the active file is not settled: a read replaces it exactly when the reader is bundled
  with that revision and another content (`BuiltinSource.ContentChangesExactlyWhen`). Once every process has read, the
  file is settled for good exactly when those bundled with its revision are bundled with the same content
  (`BuiltinSource.SettlesExactlyWhen`).
- A value arrives unchanged exactly when its texts are well-formed UTF-16 without a leading byte-order mark and its
  objects hold nothing JSON cannot, except octet arrays, and have nowhere the exact shape of a marked octet array
  (`Serialization.ReceivedExactlyWhen`).
- A quoted command line parses back to its arguments exactly when none contains a NUL
  (`Quoting.ArgumentsReturnExactlyWhen`).
- Rebuilding the registry's indexes succeeds exactly on lists without repeated ids; the view has been replaced by then,
  so on any other list the new view stands beside the old indexes (`ProviderRegistry.IndexIsSearch`,
  `ProviderRegistry.Registry.Replace`). The resolver's lists have no repeats.
- The server calls a request once for each time it receives it, and the transport replays. No id is called twice, now
  or once every channel is registered, exactly when no request was received twice; then its timer and its calls reply
  once each at most (`ChannelServer.IdsAreCalledOnceExactlyWhen`, `ChannelNetwork.RequestsAreCalledOnceExactlyWhen`).
  Without replays none is received twice; with one, a request of the client is called twice
  (`ChannelNetwork.AReplayedRequestIsCalledTwice`), and the first of its calls cannot be cancelled
  (`ChannelServer.ARepeatedRequestEscapesItsCancel`). The client's promise is settled once, by a reply to its own
  request, all the same.
- A received request is replied to twice exactly when its timer fired while it was parked and its call ended later
  (`ChannelServer.RepliedTwiceExactlyWhen`); one whose channel is registered when it arrives gets one reply at most.
- A cancellation reaches a call exactly when one was started for its id and, since then, neither a call of that id ended
  nor was it cancelled nor the server disposed (`ChannelServer.CancelReachesExactlyWhen`). A parked request is not
  reached: its call runs uncancelled later (`ChannelServer.ACancelMissesAParkedRequest`).
- The functions that settle a promise are called twice exactly when it was asked for after initialization, uncancelled,
  with an argument that cannot be written, and its rejection entry is gone (`ChannelClient.CalledTwiceExactlyWhen`);
  between the two ends that is exactly after disposal (`ChannelNetwork.AThrownPromiseWaitsForDisposal`). The second call
  has no effect.
- A text or an octet array at the end of a message is read whole exactly when it has fewer than 2^31 octets
  (`Serialization.OctetsArriveExactlyWhenShort`).

The comment in `packages/rpc/src/persistent-protocol.ts:145-148` speaks of messages not being lost on reconnection; the
code also repeats some, which the model keeps.

## Model

| member | source | states |
|---|---|---|
| Buffers.Set | packages/rpc/src/buffer.ts:59-62 | the target holds the source from the offset on and is otherwise as before |
| Buffers.WriteUInt32BE | packages/rpc/src/buffer.ts:82-87 | four octets are written in place, nothing else changes |
| Buffers.U32RoundTrip | packages/rpc/src/buffer.ts:72-87 | reading what was written gives the number modulo 2^32 |
| Buffers.ConcatBuffers | packages/rpc/src/buffer.ts:36-45 | the copying loop joins the buffers in order; a length given throws exactly when it is too short and leaves zeros behind otherwise |
| Buffers.ConcatSplit | packages/rpc/src/buffer.ts:36-45 | joining two lists of buffers is joining each and then both |
| Framing.WriteProtocolMessage | packages/rpc/src/protocol.ts:222-230 | the buffer filled field by field is the 13-octet header and the body |
| Framing.ChunkStream.AcceptChunk | packages/rpc/src/protocol.ts:93-96 | the stream's flat contents grow by the chunk |
| Framing.ChunkStream.Peek | packages/rpc/src/protocol.ts:106-129 | the first octets of the flat contents, across any chunks, or null when there are fewer; nothing is consumed |
| Framing.ChunkStream.Read | packages/rpc/src/protocol.ts:140-176 | the first octets, consumed, or null and nothing consumed |
| Framing.ChunkStream.Skip | packages/rpc/src/protocol.ts:132-137 | drops the first octets or reports that there are fewer |
| Framing.SocketProtocol.ReadMessages | packages/rpc/src/protocol.ts:260-297 | fires every completed Regular body and keeps the unfinished tail |
| Framing.SocketProtocol.OnData | packages/rpc/src/protocol.ts:243-250 | the same for the tail so far and one more chunk |
| Framing.ParseEncoded | packages/rpc/src/protocol.ts:222-230 | an encoded frame in front of any octets is parsed as that frame, the octets left over |
| Framing.ParsePrefix | packages/rpc/src/protocol.ts:262-277 | a proper prefix of an encoded frame parses as nothing |
| Framing.FeedIsDrain | packages/rpc/src/protocol.ts:93-176 | feeding chunks one by one equals draining their concatenation: chunk boundaries do not matter |
| Framing.DrainStream | packages/rpc/src/protocol.ts:260-297 | of the first octets of a stream exactly the frames completed by then are read |
| Framing.AnySplitReadsTheStream | packages/rpc/src/protocol.ts:85-177 | for any frames and any split of a prefix of their octets, the reader yields the completed frames in order and keeps exactly the rest |
| Framing.CompleteExactly | packages/rpc/src/protocol.ts:272-277 | a frame counts as completed exactly when its last octet has arrived |
| Framing.RegularFramesFire | packages/rpc/src/protocol.ts:281-295 | wherever it stands among others, a frame fires its body if its type is Regular and nothing otherwise |
| Persistence.PersistentProtocol.SendBuffer | packages/rpc/src/persistent-protocol.ts:123-143 | state and written frames are those of the send specification: numbering, queueing, the cap before the high mark |
| Persistence.PersistentProtocol.ReplaceSocket | packages/rpc/src/persistent-protocol.ts:149-160 | a fresh stream, the queue replayed oldest first, the rest unchanged |
| Persistence.PersistentProtocol.ReadMessages | packages/rpc/src/persistent-protocol.ts:166-221 | every complete frame is handled in order, the tail kept |
| Persistence.PersistentProtocol.Handle | packages/rpc/src/persistent-protocol.ts:200-219 | acknowledgement first, then what the frame type asks for |
| Persistence.PersistentProtocol.Acknowledge | packages/rpc/src/persistent-protocol.ts:224-234 | the leading acknowledged entries and their bytes leave, the drained event fires on the edge |
| Persistence.PersistentProtocol.Abandon | packages/rpc/src/persistent-protocol.ts:240-249 | one Disconnect and one close event, and nothing the second time |
| Persistence.PersistentProtocol.AckCheck | packages/rpc/src/persistent-protocol.ts:264-275 | the timer's two conditions |
| Persistence.UnacknowledgedIsSuffix | packages/rpc/src/persistent-protocol.ts:224-228 | what stays is the suffix of the queue not covered by the acknowledgement |
| Persistence.RunKeepsAccounts | packages/rpc/src/persistent-protocol.ts:123-143 | over every run the byte count is the sum of the queue, the queued numbers are consecutive up to the last sent, an unabandoned session is within the cap, and saturated and drained alternate |
| Persistence.RunStaysBetweenMarks | packages/rpc/src/persistent-protocol.ts:139-142 | saturated implies above the low mark, unsaturated and not abandoned implies at most the high mark |
| Persistence.MarksWorkExactlyWhen | packages/rpc/src/persistent-protocol.ts:224-234 | on every run exactly when low is at most high or the cap is at most high |
| SessionHistory.RunRemembers | packages/rpc/src/persistent-protocol.ts:200-219 | over every run the fields are those of the history: the messages sent, the number of the last that arrived, the time the peer was last heard |
| SessionHistory.QueuedExactlyWhen | packages/rpc/src/persistent-protocol.ts:224-228 | over every run a message is kept, with its number, acknowledgement, body and time, exactly until a frame that arrives later acknowledges its number or a higher one; nothing else is kept |
| SessionHistory.AbandonedOnce | packages/rpc/src/persistent-protocol.ts:240-249 | over every run one Disconnect frame was written if the session is abandoned and none otherwise, and the Close events number those frames and the ones received |
| SessionHistory.SendAfterRun | packages/rpc/src/persistent-protocol.ts:123-143 | after any run a send writes its message, and a Disconnect frame and the Close event follow exactly when the queued octets pass the cap for the first time; Saturated follows exactly between the high mark and the cap |
| SessionHistory.CheckAfterRun | packages/rpc/src/persistent-protocol.ts:264-275 | after any run the timer reports the socket closed exactly when something is unacknowledged and the peer was silent for 20 seconds, and abandons exactly when the oldest unacknowledged message has waited longer than the grace |
| SessionHistory.ReceiveAfterRun | packages/rpc/src/persistent-protocol.ts:200-234 | after any run a frame writes nothing, fires Drained exactly when a saturated queue falls to the low mark, and then its message or Close |
| SessionHistory.OthersAfterRun | packages/rpc/src/persistent-protocol.ts:157-262 | a keep-alive carries the latest acknowledgement, a new socket gets the queue as it was written, oldest first |
| PersistentNetwork.EveryRunDeliversInOrder | packages/rpc/src/persistent-protocol.ts:123-160 | over every run with any socket replacements, each side has fired, repeats removed, a prefix of what the other sent, and whatever is not fired is still queued |
| PersistentNetwork.SteadyCounts | packages/rpc/src/persistent-protocol.ts:203-206 | numbers that never run more than one ahead of all earlier ones are, repeats removed, 1, 2, 3 and so on |
| PersistentNetwork.ReceiveKeepsQueue | packages/rpc/src/persistent-protocol.ts:200-201 | an acknowledgement, stale ones in replayed frames included, never removes what the peer has not fired |
| PersistentNetwork.ReplaceKeeps | packages/rpc/src/persistent-protocol.ts:149-160 | the replay restores the flow on any connection, whatever it already carries |
| PersistentNetwork.DeliverFires | packages/rpc/src/persistent-protocol.ts:203-207 | the number fired next is at most one ahead and carries the body sent under it |
| PersistentNetwork.QuietLinkDeliveredAll | packages/rpc/src/persistent-protocol.ts:149-160 | when both ends share a connection with nothing in flight, everything sent has been fired |
| PersistentNetwork.QuietLinkReleasesExactlyWhen | packages/rpc/src/persistent-protocol.ts:224-228 | the next frame then empties the replay queue exactly when fewer than 2^32 messages were sent |
| OctetNetwork.EveryOctetRunDeliversInOrder | packages/rpc/src/persistent-protocol.ts:123-215 | the same from octets that arrive in portions of any size, sockets replaced at any time, for bodies below 2^32 octets |
| OctetNetwork.ArriveInLane | packages/rpc/src/protocol.ts:260-297 | what has arrived on a connection is read as its next whole frames, and what is kept and still to come spells the others |
| Quantities.WriteInt32VQL | packages/rpc/src/serialization.ts:84-103 | both loops together write the seven-bit groups of the number's 32 bits |
| Quantities.ReadIntVQL | packages/rpc/src/serialization.ts:67-76 | the or of shifted groups as a signed integer, ending at the end of the input too |
| Quantities.BufferReader.Read | packages/rpc/src/serialization.ts:31-41 | the slice at the cursor, short at the end, negative lengths as `slice` takes them |
| Quantities.BufferWriter.Write | packages/rpc/src/serialization.ts:47-57 | the joined contents grow by the buffer |
| Quantities.QuantityRoundTrip | packages/rpc/src/serialization.ts:67-103 | every signed 32-bit integer is read back, the reader just behind it |
| Quantities.WideQuantityWraps | packages/rpc/src/serialization.ts:84-103 | any other integer comes back as its low 32 bits, signed |
| Quantities.QuantityIsShort | packages/rpc/src/serialization.ts:84-103 | at most five bytes |
| Quantities.QuantityIsMinimal | packages/rpc/src/serialization.ts:84-103 | no shorter group sequence reads as the same integer |
| Quantities.GroupsAreWhole | packages/rpc/src/serialization.ts:95-101 | the continuation bit is on all bytes but the last, and the last is zero only for zero |
| Serialization.SerializeTo | packages/rpc/src/serialization.ts:152-188 | what the recursive writer writes |
| Serialization.DeserializeFrom | packages/rpc/src/serialization.ts:193-218 | what the recursive reader yields and where it stops, unknown tags and the end of input included |
| Serialization.SerializedArrives | packages/rpc/src/serialization.ts:152-218 | for every value, deserializing its serialization before any octets yields the received value and leaves exactly those octets |
| Serialization.ReceivedExactlyWhen | packages/rpc/src/serialization.ts:152-250 | the received value is the sent one exactly when it is sendable |
| Serialization.BlockOfAnyLengthReads | packages/rpc/src/serialization.ts:67-103 | a block of any length: its length arrives as a signed 32-bit number and as much is cut out of the input |
| Serialization.OctetsArriveExactlyWhenShort | packages/rpc/src/serialization.ts:193-218 | a text or an octet array at the end of a message is read whole exactly when it has fewer than 2^31 octets |
| Serialization.RestoredExactlyWhen | packages/rpc/src/serialization.ts:220-250 | nested octet arrays survive JSON, exactly for values without undefined, buffers or the marker shape |
| Serialization.NestedArrives | packages/rpc/src/serialization.ts:220-250 | what any value nested in an object becomes at the other end, restorable or not: null for undefined elements, undefined members gone, a buffer as its octets and their number |
| Serialization.TagsAre | packages/rpc/src/serialization.ts:152-188 | which tag each kind of value is written under |
| Serialization.OtherwiseUndefined | packages/rpc/src/serialization.ts:193-218 | the end of the input and every other tag read as undefined |
| Serialization.MessageRoundTrip | packages/rpc/src/serialization.ts:148-151 | header and body are read back to back with nothing left |
| CodecWitness.AFaithfulCodecExists | packages/rpc/src/serialization.ts:152-250 | the assumptions about UTF-8, JSON text and base64 can be met together |
| ChannelClient.ChannelClient.Call | packages/rpc/src/channelClient.ts:54-147 | id, rejection entry, and sending or queueing behind initialization; an argument that cannot be written rejects the promise and leaves its entries |
| ChannelClient.ChannelClient.DoSend | packages/rpc/src/channelClient.ts:69-121 | nothing happens after disposal or for a settled promise; otherwise the handler is set, and the message sent unless writing it throws |
| ChannelClient.ChannelClient.OnMessage | packages/rpc/src/channelClient.ts:232-240 | initialization, or the response to the handler of its id |
| ChannelClient.ChannelClient.OnCancellationRequested | packages/rpc/src/channelClient.ts:129-137 | a pending promise is cancelled, a settled one left alone |
| ChannelClient.ChannelClient.DisposeAll | packages/rpc/src/channelClient.ts:249-274 | every pending promise is rejected, oldest first, and only once |
| ChannelClient.EveryPromiseSettlesOnce | packages/rpc/src/channelClient.ts:54-147 | over every run and any messages: settled at most once, by a response only with its own id, pending or settled, none pending after disposal |
| ChannelClient.ThrownExactlyWhen | packages/rpc/src/channelClient.ts:66-127 | over every run, the executor of a promise threw exactly when some step asked for it uncancelled, initialized and undisposed, with an argument that cannot be written |
| ChannelClient.CalledTwiceExactlyWhen | packages/rpc/src/channelClient.ts:66-127 | a promise's resolve or reject function is called a second time exactly when such a step happened and its rejection entry is gone; such a request is never sent |
| ChannelClient.AnUnwritableArgumentIsRejectedTwice | packages/rpc/src/channelClient.ts:249-274 | it does happen, at disposal |
| ChannelProgress.PendingIsPlaced | packages/rpc/src/channelClient.ts:54-147 | over every run a pending promise waits for initialization, was sent, or cannot be written: none is forgotten |
| ChannelProgress.AnswerSettles | packages/rpc/src/channelClient.ts:209-240 | over every run, any response in success or error to a pending promise that was sent settles that promise with it, and only that |
| ChannelProgress.OtherResponsesSettleNothing | packages/rpc/src/channelClient.ts:209-240 | a response to a promise that is not pending changes nothing |
| ChannelProgress.CancelSettles | packages/rpc/src/channelClient.ts:129-137 | cancelling a pending promise settles it and tells the server once; a settled one is left alone |
| ChannelProgress.CloseSettles | packages/rpc/src/channelClient.ts:249-274 | disposal settles every pending promise, in the order they were asked for, and sends nothing |
| ChannelProgress.CallsAreSent | packages/rpc/src/channelClient.ts:54-147 | a call is sent at once after initialization and waits before it |
| ChannelProgress.QueuedCallsAreSent | packages/rpc/src/channelClient.ts:69-127 | its turn sends a waiting request as it was asked for, unless it was settled or cannot be written |
| ChannelServer.ChannelServer.OnPromiseRequest | packages/rpc/src/channelServer.ts:100-123 | a call is started on a registered channel, otherwise the request is parked |
| ChannelServer.ChannelServer.FlushPendingRequests | packages/rpc/src/channelServer.ts:255-273 | all requests parked on the channel are started in order and forgotten |
| ChannelServer.ChannelServer.TimeOut | packages/rpc/src/channelServer.ts:235-250 | an error reply; the request stays parked |
| ChannelServer.ChannelServer.DisposeActiveRequest | packages/rpc/src/channelServer.ts:220-227 | the active call is cancelled and forgotten |
| ChannelServer.ChannelServer.DisposeAll | packages/rpc/src/channelServer.ts:275-282 | every active call is cancelled, in any order |
| ChannelServer.EachArrivalIsServedOnce | packages/rpc/src/channelServer.ts:100-123 | over every run, each time a request is received it is parked or called, not both, called at most once and replied to at most once by its timer and once by its call |
| ChannelServer.CallsAndRepliesAreBounded | packages/rpc/src/channelServer.ts:100-273 | over every run, calls and timer replies of an id are at most as many as its receipts, and replies of calls as its calls |
| ChannelServer.IdsAreCalledOnceExactlyWhen | packages/rpc/src/channelServer.ts:100-123 | no id is called twice, now or later short of another request, exactly when none was received twice; then no id has two timer replies or two replies of calls |
| ChannelServer.ARepeatedRequestIsCalledTwice | packages/rpc/src/channelServer.ts:100-123 | a request received twice on a registered channel is called twice |
| ChannelServer.RepliedTwiceExactlyWhen | packages/rpc/src/channelServer.ts:229-273 | over every run, a received request has two replies exactly when its timer fired while it was parked and its call ended later |
| ChannelServer.ARegisteredRequestIsAnsweredOnce | packages/rpc/src/channelServer.ts:107-123 | a request whose channel is registered when it arrives never times out and has at most one reply |
| ChannelServer.ATimedOutRequestIsAnsweredTwice | packages/rpc/src/channelServer.ts:235-273 | for every request, a late registration yields the second reply |
| ChannelServer.RepliesCarryWhatEnded | packages/rpc/src/channelServer.ts:123-187 | over every run a reply carries the kind and data its call ended with, or the error of its timer |
| ChannelServer.CancelReachesExactlyWhen | packages/rpc/src/channelServer.ts:220-227 | over every run, a cancellation cancels a call exactly when one was started for its id and nothing has made the server forget it since |
| ChannelServer.CancelReachesTheOnlyCall | packages/rpc/src/channelServer.ts:220-227 | for an id called once, exactly when that call has neither ended nor been cancelled |
| ChannelServer.ARepeatedRequestEscapesItsCancel | packages/rpc/src/channelServer.ts:118-227 | of two running calls of one id a cancellation cancels the later one, and further cancellations change nothing |
| ChannelServer.ACancelMissesAParkedRequest | packages/rpc/src/channelServer.ts:220-273 | in every reachable state a cancelled parked request stays parked and runs uncancelled once its channel is registered and flushed |
| ChannelNetwork.EveryAnswerBelongsToItsRequest | packages/rpc/src/channelClient.ts:209-240 | over every run of both ends with losses and replays, a promise settled by a response was settled once, by a reply the server gave to that very request |
| ChannelNetwork.RequestsAreCalledOnceExactlyWhen | packages/rpc/src/channelServer.ts:68-123 | over every such run only the client's requests are called; once each exactly when none was received twice, and always without replays |
| ChannelNetwork.AReplayedRequestIsCalledTwice | packages/rpc/src/persistent-protocol.ts:149-160 | a request delivered and replayed is called twice |
| ChannelNetwork.AnUnwritablePromiseIsNeverAnswered | packages/rpc/src/channelClient.ts:117-127 | over every such run a promise whose argument cannot be written is never answered, sent at once or queued behind initialization |
| ChannelNetwork.AThrownPromiseWaitsForDisposal | packages/rpc/src/channelClient.ts:249-274 | and one whose executor threw stays pending exactly until disposal, which rejects it again |
| ChannelStack.EveryStackRunIsALaneRun | packages/rpc/src/remote.ts:287-317 | over every run of client and server on the two persistent endpoints, sockets replaced at any time, both are where a run of the lanes with losses and replays brings them |
| ChannelStack.EveryStackAnswerBelongsToItsRequest | packages/rpc/src/channelClient.ts:209-240 | so over every such run an answered promise was settled once, by a reply to its own request |
| ChannelStack.FramesAreSent | packages/rpc/src/persistent-protocol.ts:162-165 | a Regular frame in flight carries a body its sender was asked to send, under its number |
| RefreshWaiters.NoRequestSettledTwice | packages/provider/src/registry-service.ts:257-273 | no generation is settled twice or settled while its waiter is kept |
| RefreshWaiters.AnswerReadsAfterRequest | packages/provider/src/registry-service.ts:150-159 | whoever answers a request began to read after it was made |
| RegistryRefresh.ProviderRegistryService.RequestRefresh | packages/provider/src/registry-service.ts:150-172 | a new generation, its waiter, and a loop if none runs |
| RegistryRefresh.ProviderRegistryService.ResumeRefreshLoop | packages/provider/src/registry-service.ts:190-253 | everything between two awaits: overtaken, failed, mismatched, unchanged, published |
| RegistryRefresh.ProviderRegistryService.SettleRefreshWaiters | packages/provider/src/registry-service.ts:257-273 | the waiters up to the generation are settled in order, the others stay in order |
| RegistryRefresh.ProviderRegistryService.FinishRefresh | packages/provider/src/registry-service.ts:165-178 | the handler of the loop promise, restarting for requests made in the gap |
| RegistryRefresh.ProviderRegistryService.DisposeAll | packages/provider/src/registry-service.ts:133-141 | every waiter is rejected once |
| RegistryRefresh.EachRequestSettledOnce | packages/provider/src/registry-service.ts:150-159 | in every reachable state each request is pending or settled, once in all |
| RegistryRefresh.AnswersAreFresh | packages/provider/src/registry-service.ts:182-216 | no round whose reads began before a request answers it, and an answer is the latest publication |
| RegistryRefresh.PublicationsArePairedAndNumbered | packages/provider/src/registry-service.ts:202-247 | every publication pairs the account layer with the built-in revision it was based on, and the revisions count 1, 2, 3 |
| RegistryRefresh.NoLostWakeUp | packages/provider/src/registry-service.ts:161-178 | a waiter owed a round has a running loop or a handler that starts one covering it |
| RegistryRefresh.LastRoundAnswersExactlyWhen | packages/provider/src/registry-service.ts:205-212 | the last round of a burst answers everybody, except a revision mismatch before the first snapshot |
| RegistryRefresh.OnlyTheFirstMismatchStrands | packages/provider/src/registry-service.ts:205-212 | a waiter whose round is over has no snapshot to be given |
| RegistryRefresh.CurrentRoundPublishes | packages/provider/src/registry-service.ts:214-247 | in every reachable state, after a round no request overtook, whose reads fit and resolve, the snapshot carries both revisions read and every covered waiter got it; it is published, under the next number, exactly when there was none or one revision differs |
| RegistryRefresh.MismatchedRoundKeeps | packages/provider/src/registry-service.ts:205-212 | reads that do not fit publish nothing, and the waiters get the snapshot there is |
| RegistryRefresh.FailingRoundKeeps | packages/provider/src/registry-service.ts:194-253 | a failing round publishes nothing, and its waiters are rejected if the error listeners return and none disposes |
| RegistryRefresh.OvertakenRoundIsDropped | packages/provider/src/registry-service.ts:195-202 | an overtaken round is thrown away however it ended, its reasons kept for the next, which covers every request |
| RegistryRefresh.ListenersAreTold | packages/provider/src/registry-service.ts:285-300 | change listeners are told of every publication and of nothing else, error listeners of every failing round |
| RegistryRefresh.DisposedServiceIsSilent | packages/provider/src/registry-service.ts:133-203 | a disposed service publishes nothing, tells nobody and starts no loop, however its last rounds end |
| RegistryRefresh.ReasonsReachTheirRound | packages/provider/src/registry-service.ts:150-188 | in every reachable state a reason is kept until a round that no request overtook ends with it among its reasons |
| RegistryRefresh.RejectionsAreFreshUnlessAnErrorListenerThrows | packages/provider/src/registry-service.ts:194-200 | while error listeners return, a rejection comes from a round begun after the request |
| RegistryRefresh.NewerRequestCrashesExactlyWhen | packages/provider/src/registry-service.ts:150-235 | however the round fails, a request made meanwhile or before the handler runs is rejected by its error exactly when an error listener throws |
| RegistryRefresh.AThrowingErrorListenerRejectsANewerRequest | packages/provider/src/registry-service.ts:150-171 | it does happen: a request is rejected although no round has read for it |
| AccountRefresh.AccountProviderService.RequestRefresh | packages/provider/src/account-provider-service.ts:112-124 | a new generation and its waiter, and a loop if none runs |
| AccountRefresh.AccountProviderService.ResumeRefreshLoop | packages/provider/src/account-provider-service.ts:156-213 | everything between two of the three awaits of a round |
| AccountRefresh.AccountProviderService.CatchRound | packages/provider/src/account-provider-service.ts:199-213 | a first failure publishes fail-closed, a later one rejects the waiters of its round |
| AccountRefresh.AccountProviderService.FinishRefresh | packages/provider/src/account-provider-service.ts:136-146 | pending reasons restart the loop |
| AccountRefresh.EachRequestSettledOnce | packages/provider/src/account-provider-service.ts:112-124 | in every reachable state each request is pending or settled, once in all |
| AccountRefresh.AnswersAreFresh | packages/provider/src/account-provider-service.ts:150-152 | no round whose reads began before a request answers it |
| AccountRefresh.NoLostWakeUp | packages/provider/src/account-provider-service.ts:136-146 | while error listeners return, a waiter has a running round or a restart that covers it |
| AccountRefresh.OvertakenRoundsAreNotPublished | packages/provider/src/account-provider-service.ts:170-179 | an overtaken resolution changes neither snapshot nor waiters, and the next round covers everyone |
| AccountRefresh.FailingRoundPublishes | packages/provider/src/account-provider-service.ts:199-213 | in every reachable state a failing round publishes exactly when nothing was published before, the configuration was read and the error listeners return, and then that configuration's fail-closed snapshot; otherwise the snapshot stays |
| AccountRefresh.FailingRoundAnswers | packages/provider/src/account-provider-service.ts:199-213 | with returning error listeners that do not dispose, each covered waiter is rejected if there was a snapshot or no configuration was read, and resolved with the fail-closed snapshot otherwise |
| AccountRefresh.FailingRoundRemembers | packages/provider/src/account-provider-service.ts:154-208 | a first round that fails at either later point falls back on the configuration it read |
| AccountRefresh.AcceptedRoundPublishes | packages/provider/src/account-provider-service.ts:170-198 | a resolution nothing overtook is the snapshot afterwards, every covered waiter got it, and it is published exactly when it differs from the one before |
| AccountRefresh.QuietRoundPublishes | packages/provider/src/account-provider-service.ts:154-198 | a whole round that nothing comes between publishes what was resolved, under the built-in revision read first |
| AccountRefresh.ListenersAreTold | packages/provider/src/account-provider-service.ts:186-202 | change listeners are told of every accepted change after the first publication, error listeners of every failure, nobody of anything else |
| AccountRefresh.DisposedServiceFailsClosed | packages/provider/src/account-provider-service.ts:136-213 | a disposed service publishes nothing it resolved and tells nobody; without a snapshot a round that read its configuration leaves the fail-closed one behind |
| AccountRefresh.ReasonsReachARound | packages/provider/src/account-provider-service.ts:112-153 | the reason of a request is kept until a round begins with it |
| AccountRefresh.FailingRoundStrandsExactlyWhen | packages/provider/src/account-provider-service.ts:199-213 | a failing round leaves its requests unanswered exactly when an error listener throws and none disposes |
| AccountRefresh.AThrowingErrorListenerStrandsARequest | packages/provider/src/account-provider-service.ts:199-213 | it does happen: an idle service keeps a request nobody will answer |
| AccountRefresh.StrandedOnlyByAThrowingListener | packages/provider/src/account-provider-service.ts:148-217 | a request still waiting when the service is idle was left by a throwing listener |
| CelTokenizer.Tokenize | packages/model-option-map/src/tokenizer.ts:22-72 | the scanning loop yields the tokens, or the first error, of the scan specification |
| CelTokenizer.ReadString | packages/model-option-map/src/tokenizer.ts:82-124 | text, end and every error of a string literal |
| CelTokenizer.ReadNumber | packages/model-option-map/src/tokenizer.ts:74-80 | the longest match of the number pattern |
| CelTokenizer.ScanLaysOut | packages/model-option-map/src/tokenizer.ts:22-72 | tokens are nonempty and follow each other with only white space between; all but strings say what they cover; eof ends them |
| CelTokenizer.LaidOutInOrder | packages/model-option-map/src/tokenizer.ts:22-72 | any two tokens are disjoint and in order |
| CelTokenizer.LaidOutEnds | packages/model-option-map/src/tokenizer.ts:70-71 | exactly the last token is eof |
| CelTokenizer.ScannedNumberIsNumber | packages/model-option-map/src/tokenizer.ts:75-77 | a number token is a number literal of the grammar |
| CelTokenizer.NumberIsLongest | packages/model-option-map/src/tokenizer.ts:75-77 | no longer piece of the source at that place is one |
| CelTokenizer.StringReads | packages/model-option-map/src/tokenizer.ts:82-124 | a string written with any choice of escapes is read as what was meant |
| CelTokenizer.ReadStringWasWritten | packages/model-option-map/src/tokenizer.ts:82-124 | and nothing else is read as a string |
| CelLiterals.EscapesRead | packages/model-option-map/src/tokenizer.ts:126-135 | a string of one escape compiles to the character its letter stands for, by a table of characters |
| CelLiterals.OtherEscapesFail | packages/model-option-map/src/tokenizer.ts:121 | any other letter but `u` is refused, at the backslash |
| CelLiterals.UnicodeEscapesRead | packages/model-option-map/src/tokenizer.ts:112-120 | four hexadecimal digits, each in either case, compile to the code unit they write |
| CelLiterals.LettersAreThese | packages/model-option-map/src/tokenizer.ts:46-51 | which characters names are made of |
| CelLiterals.DigitsAreThese | packages/model-option-map/src/tokenizer.ts:39 | which are digits |
| CelLiterals.HexDigitsAreThese | packages/model-option-map/src/tokenizer.ts:114 | and which hexadecimal digits |
| CelLiterals.OperatorsAreThese | packages/model-option-map/src/tokenizer.ts:18-20 | which characters are operators and punctuation |
| CelLiterals.SpacesAreThese | packages/model-option-map/src/tokenizer.ts:27-30 | which characters are white space |
| CelTokenizer.CompileSource | packages/model-option-map/src/parser.ts:46-51 | on every source text the two stages end with an expression or an error |
| CelParser.Parser.ParseProgram | packages/model-option-map/src/parser.ts:61-77 | one expression and eof, or which error and where |
| CelParser.Parser.ParseConditionalExpr | packages/model-option-map/src/parser.ts:79-86 | result and cursor are the grammar's; the cursor stays within the tokens; the recursion ends |
| CelParser.Parser.ParseBinary | packages/model-option-map/src/parser.ts:112-128 | the loop folds the operators of one level to the left |
| CelParser.Parser.ParseUnary | packages/model-option-map/src/parser.ts:130-145 | prefix operators nest to the right |
| CelParser.Parser.ParsePrimary | packages/model-option-map/src/parser.ts:147-180 | literals, the input, parentheses, arrays, objects, and every error |
| CelParser.Parser.ParseArray | packages/model-option-map/src/parser.ts:182-190 | the do-while loop reads one or more elements, or none |
| CelParser.Parser.ParseObject | packages/model-option-map/src/parser.ts:192-214 | string keys, no duplicates, one or more entries, or none |
| CelPrecedence.OperatorsAreRanked | packages/model-option-map/src/parser.ts:88-110 | the table of levels against a ranking of the thirteen binary operators by their characters: or, and, equality, relational, additive, multiplicative |
| CelPrecedence.ChainsGroup | packages/model-option-map/src/parser.ts:88-128 | a chain of any length, its operands in parentheses where they are binary or conditional, parses to the tree in which the loosest operator applies last and of equally loose ones the one furthest right |
| CelPrecedence.TwoOperatorsGroup | packages/model-option-map/src/parser.ts:88-128 | for any three operands and two operators the right one applies first exactly when it ranks higher |
| CelPrecedence.ConditionalsGroup | packages/model-option-map/src/parser.ts:79-86 | a conditional is looser than every operator, and its last branch holds all that follows |
| CelPrecedence.PrefixesBind | packages/model-option-map/src/parser.ts:130-145 | `!`, `-` and `+` before an operand make an operand |
| CelPrecedence.OtherOperatorsStartNothing | packages/model-option-map/src/parser.ts:130-180 | no expression starts with another operator |
| CelPrecedence.OperandsRead | packages/model-option-map/src/parser.ts:147-214 | keywords, numbers, strings, the variable, arrays, objects and prefixed operands, by their characters, are read as what they stand for |
| CelPrecedence.SourceChainsGroup | packages/model-option-map/src/parser.ts:46-128 | the same for chains in any source text that spells them |
| CelPrecedence.SourceTwoOperatorsGroup | packages/model-option-map/src/parser.ts:46-128 | and for two operators |
| CelPrecedence.SourceConditionalsGroup | packages/model-option-map/src/parser.ts:46-128 | and for conditionals |
| CelPrecedence.SourceOperandsRead | packages/model-option-map/src/parser.ts:46-214 | and for operands |
| CelWords.EveryWordIsKept | packages/model-option-map/src/parser.ts:61-239 | whatever parses holds exactly the words of its tokens, all but the marks of the grammar, in their order: none invented, lost or moved |
| CelErrors.NamesRefused | packages/model-option-map/src/parser.ts:160-174 | a name before an opening parenthesis is a function call, one that is no keyword and not the variable is unknown |
| CelErrors.FirstTokenRefused | packages/model-option-map/src/parser.ts:147-180 | unsafe numbers, nothing at all, and marks that start no expression |
| CelErrors.TrailingRefused | packages/model-option-map/src/parser.ts:61-77 | behind a complete expression a point is a member access and other marks are unexpected |
| CelErrors.ParenthesisMissing | packages/model-option-map/src/parser.ts:175-179 | a parenthesis that is not closed is missed where something else stands |
| CelErrors.BracketMissing | packages/model-option-map/src/parser.ts:182-190 | and so is a bracket |
| CelErrors.ColonMissing | packages/model-option-map/src/parser.ts:79-86 | and the colon of a conditional |
| CelErrors.KeysRefused | packages/model-option-map/src/parser.ts:192-214 | a key must be a string with a colon behind it |
| CelErrors.RepeatedKeyRefused | packages/model-option-map/src/parser.ts:192-214 | and not repeat another |
| CelPrinter.PrintParses | packages/model-option-map/src/parser.ts:79-145 | a clean expression printed at any level parses back, up to the token that follows |
| CelPrinter.Spine | packages/model-option-map/src/parser.ts:112-128 | a left operand arrives in the fold with all of it to the left |
| CelRoundTrip.ParseIsThrifty | packages/model-option-map/src/parser.ts:147-214 | no parse holds more strings than the tokens it consumed |
| CelRoundTrip.UncleanPrintIsLossy | packages/model-option-map/src/parser.ts:182-219 | parsing an unclean expression fails or loses a string |
| CelRoundTrip.RoundTripExactlyWhenClean | packages/model-option-map/src/parser.ts:61-239 | printing and parsing gives the expression back exactly when it is clean |
| CelMinimality.ParsedIsPrintable | packages/model-option-map/src/parser.ts:61-239 | whatever the parser returns, number tokens starting with a digit as the tokenizer's do, has known operators, safe numbers and distinct keys, so it can be printed |
| CelMinimality.NoShorterTokens | packages/model-option-map/src/parser.ts:61-239 | no token list that parses to an expression is shorter than its print |
| CelSource.SpelledIsRead | packages/model-option-map/src/tokenizer.ts:22-124 | lexemes spelled and spaced in any way are read as those lexemes |
| CelSource.SourceRoundTrip | packages/model-option-map/src/parser.ts:46-239 | any source text that spells the printed expression compiles back to it exactly when it is clean |
| CelSource.RenderedRoundTrip | packages/model-option-map/src/parser.ts:46-239 | the same for the rendered text of every printable expression |
| CelSource.RecompiledExactlyWhenClean | packages/model-option-map/src/parser.ts:46-239 | whatever compiles, printed and compiled again, comes back exactly when it is clean |
| CelSource.ABracketStringIsLost | packages/model-option-map/src/parser.ts:182-219 | the text of an array of the one string "]" does not compile back |
| MergePatch.MergeObject | packages/model-option-map/src/merge-patch.ts:63-78 | whatever the key order, the loop computes MergePatch of section 2 of RFC 7396 |
| MergePatch.CollectWrittenPaths | packages/model-option-map/src/merge-patch.ts:35-49 | exactly the written paths, none a prefix of another |
| MergePatch.PathsOverlap | packages/model-option-map/src/merge-patch.ts:51-57 | one path is a prefix of the other |
| MergePatch.ApplyOrderedJsonMergePatches | packages/model-option-map/src/merge-patch.ts:13-33 | accepted exactly when no patch writes into a path of another; then all are merged in order, otherwise the first conflict is named |
| MergePatch.OnePatchIsPrefixFree | packages/model-option-map/src/merge-patch.ts:35-57 | one patch never conflicts with itself |
| MergePatch.EveryOrderIsAccepted | packages/model-option-map/src/merge-patch.ts:13-33 | every permutation of accepted patches is accepted |
| MergePatch.EveryOrderGivesTheSameBody | packages/model-option-map/src/merge-patch.ts:13-33 | and gives the same body |
| MergePatch.CompatibleCommute | packages/model-option-map/src/merge-patch.ts:63-78 | two compatible patches commute on every target |
| MergePatch.UnrelatedPathsRemain | packages/model-option-map/src/merge-patch.ts:63-78 | a path that overlaps no written path reads the same before and after |
| MergePatch.WrittenPathsHold | packages/model-option-map/src/merge-patch.ts:63-78 | a written path reads what the patch says there |
| MergePatch.EveryPatchPrevails | packages/model-option-map/src/merge-patch.ts:13-33 | after accepted patches each written path reads as if its patch had come alone |
| RefreshLease.ZCodeBuiltinRemoteSynchronizer.Begin | packages/provider-node/src/zcode-builtin-remote-synchronizer.ts:61-101 | disposed, joined, held, not due or acquired, and what the shared record then says |
| RefreshLease.ZCodeBuiltinRemoteSynchronizer.End | packages/provider-node/src/zcode-builtin-remote-synchronizer.ts:107-129 | which ending is recorded for each outcome of fetch, endpoint, application and disposal |
| RefreshLease.ZCodeBuiltinRemoteSynchronizer.Release | packages/provider-node/src/zcode-builtin-remote-synchronizer.ts:141-168 | only the recorded holder changes the record |
| RefreshLease.AtMostOneLiveLease | packages/provider-node/src/zcode-builtin-remote-synchronizer.ts:86-101 | over every run of any number of processes on one endpoint, at most one unexpired lease is held |
| RefreshLease.SecondLeaseExactlyWhen | packages/provider-node/src/zcode-builtin-remote-synchronizer.ts:86-101 | over every run with any endpoints, a live lease can get a second beside it on its own endpoint exactly when another endpoint was given one in between |
| RefreshLease.DisplacedExactlyWhen | packages/provider-node/src/zcode-builtin-remote-synchronizer.ts:89-100 | a live lease is out of the record exactly when another endpoint was given a lease after it |
| RefreshLease.OneEndpointTwoLeases | packages/provider-node/src/zcode-builtin-remote-synchronizer.ts:86-101 | one endpoint does hold two leases at once |
| RefreshLease.TwoEndpointsTwoLeases | packages/provider-node/src/zcode-builtin-remote-synchronizer.ts:86-101 | two endpoints do hold two leases at once |
| RefreshLease.ReplacedHolderChangesNothing | packages/provider-node/src/zcode-builtin-remote-synchronizer.ts:146-148 | a holder whose lease was replaced never again changes the record by finishing |
| RefreshLease.DelayGrows | packages/provider-node/src/zcode-builtin-remote-synchronizer.ts:156-159 | more failures never shorten the delay, which is capped |
| RefreshLease.BackOffStarts | packages/provider-node/src/zcode-builtin-remote-synchronizer.ts:149-159 | over every run on one endpoint the first failure, or the first after a success, waits the base delay or the maximum, whichever is less |
| RefreshLease.BackOffDoubles | packages/provider-node/src/zcode-builtin-remote-synchronizer.ts:149-159 | over every run, of two failures with only cancelled refreshes between them the later waits twice as long as the earlier, up to the maximum |
| RefreshLease.OtherDelays | packages/provider-node/src/zcode-builtin-remote-synchronizer.ts:149-166 | a success waits the regular interval, a cancelled refresh not at all |
| RefreshLease.BackOffGrows | packages/provider-node/src/zcode-builtin-remote-synchronizer.ts:149-159 | from failure to failure without a success between the delay does not shrink, and it is capped |
| RefreshLease.AcquiredExactlyWhen | packages/provider-node/src/zcode-builtin-remote-synchronizer.ts:86-101 | over every run on one endpoint a process gets the lease exactly when none is live and, unless forced, the delay of the last ending is over |
| RefreshLease.OtherEndpointStartsOver | packages/provider-node/src/zcode-builtin-remote-synchronizer.ts:86-101 | an endpoint the record does not name gets the lease at once and owes nothing to the failures before |
| BuiltinSource.NodeZCodeBuiltinProviderConfigSource.ReadAndMaterialize | packages/provider-node/src/zcode-builtin-provider-config-source.ts:100-113 | the selected release, written to the active file only if that says otherwise |
| BuiltinSource.NodeZCodeBuiltinProviderConfigSource.ApplyRemoteRelease | packages/provider-node/src/zcode-builtin-provider-config-source.ts:64-84 | updated, unchanged, stale or conflict, and what the file then holds |
| BuiltinSource.NodeZCodeBuiltinProviderConfigSource.WatchRefresh | packages/provider-node/src/zcode-builtin-provider-config-source.ts:133-148 | listeners hear exactly of releases other than the observed one |
| BuiltinSource.ReadIsNewest | packages/provider-node/src/zcode-builtin-provider-config-source.ts:180-206 | a locked read is at least its bundled and the previous active revision, is one of the two releases, and takes the bundled content on a conflict |
| BuiltinSource.ReadsNeverGoBack | packages/provider-node/src/zcode-builtin-provider-config-source.ts:100-113 | over every interleaving, from any active file, no locked read is older than an earlier one of any process |
| BuiltinSource.RunNeverGoesBack | packages/provider-node/src/zcode-builtin-provider-config-source.ts:64-84 | the active revision never decreases and a valid file stays valid |
| BuiltinSource.UpdatedExactlyWhenNewer | packages/provider-node/src/zcode-builtin-provider-config-source.ts:69-80 | a remote release is taken exactly when it is newer than both files |
| BuiltinSource.JudgedExactlyWhen | packages/provider-node/src/zcode-builtin-provider-config-source.ts:64-84 | stale exactly when older than one of the two files, unchanged exactly when it is the content in force, in conflict exactly when another content is |
| BuiltinSource.ContentChangesExactlyWhen | packages/provider-node/src/zcode-builtin-provider-config-source.ts:184-193 | at one revision the content changes exactly when the reader contests it |
| BuiltinSource.SettlesExactlyWhen | packages/provider-node/src/zcode-builtin-provider-config-source.ts:100-113 | over every run of reads, once each process has read the file never changes again exactly when those bundled with its revision agree |
| BuiltinSource.TwoBundlesAlternate | packages/provider-node/src/zcode-builtin-provider-config-source.ts:184-193 | two such readers replace each other's file for any number of rounds |
| OwnedOrder.UniqueInOrder | packages/provider/src/owned-order.ts:25-34 | the loop keeps first occurrences |
| OwnedOrder.ResolveOrder | packages/provider/src/owned-order.ts:7-23 | the order built from filters and lists |
| OwnedOrder.ResolvedIsPermutation | packages/provider/src/owned-order.ts:7-23 | every member of either owner once, and nothing else |
| OwnedOrder.RelativeOrderIsKept | packages/provider/src/owned-order.ts:16-22 | requested members keep the requested order, the others their own |
| OwnedOrder.UnrequestedStandOutside | packages/provider/src/owned-order.ts:1-6 | unrequested built-in members stand before, unrequested personal ones behind, all requested ones |
| OwnedOrder.ResolvedPlaces | packages/provider/src/owned-order.ts:7-34 | which of any two members stands first, from where each stands first in the three lists given |
| OwnedOrder.ResolvingIsIdempotent | packages/provider/src/owned-order.ts:7-23 | resolving a resolved order changes nothing |
| ModelMembership.PersonalModels.AddPersonalModel | packages/provider/src/config-service.ts:321-366 | members and stored order after adding, or the refusal |
| ModelMembership.PersonalModels.RenamePersonalModel | packages/provider/src/config-service.ts:368-413 | members and stored order after renaming, or which refusal |
| ModelMembership.PersonalModels.DeletePersonalModel | packages/provider/src/config-service.ts:521-558 | members and stored order after deleting, or which refusal |
| ModelMembership.PersonalModels.ReorderPersonalModels | packages/provider/src/config-service.ts:296-319 | the stored order is the requested one, resolved |
| ModelMembership.EditIsAsked | packages/provider/src/config-service.ts:296-413 | every edit keeps the conditions and changes the effective order only as asked |
| ModelMembership.RefusedExactlyWhen | packages/provider/src/config-service.ts:321-558 | which edits are refused and why |
| ModelMembership.AddAppends | packages/provider/src/config-service.ts:345-357 | adding appends |
| ModelMembership.AddTakesTheStoredPlace | packages/provider/src/config-service.ts:345-357 | whatever the stored order names, the new model takes the place it gives among the requested, or comes last; the others stay |
| ModelMembership.RenameSubstitutes | packages/provider/src/config-service.ts:396-410 | renaming substitutes in place |
| ModelMembership.DeleteRemoves | packages/provider/src/config-service.ts:541-554 | deleting removes and moves nothing |
| ModelMembership.AddThenDelete | packages/provider/src/config-service.ts:321-366 | adding and deleting again gives the same models in the same order |
| ModelMembership.RunKeepsGood | packages/provider/src/config-service.ts:296-413 | over any run of edits the conditions hold and the effective order lists every member once |
| ModelMembership.NextPersonalProviderId | packages/provider/src/config-service.ts:688-698 | the search ends, within as many candidates as ids are occupied, at the first free id |
| ProviderRegistry.ResolveProviders | packages/provider/src/resolver.ts:217-334 | the loop publishes the complete providers with executable models, in provider order, without repeats |
| ProviderRegistry.ResolveProviderOrder | packages/provider/src/resolver.ts:355-376 | the account families first, then the rest by owner and request |
| ProviderRegistry.ProviderOrderIsPermutation | packages/provider/src/resolver.ts:355-376 | every effective provider once |
| ProviderRegistry.ModelOrderIsPermutation | packages/provider/src/resolver.ts:237-248 | every model of either owner once |
| ProviderRegistry.ProviderPlaces | packages/provider/src/resolver.ts:355-376 | which of any two providers stands first: account families before all others, these by owner and request |
| ProviderRegistry.PublishedExactlyWhen | packages/provider/src/resolver.ts:217-334 | over every configuration exactly the complete providers with an executable model are published, each with its own configuration and exactly its executable models, providers and models in order |
| ProviderRegistry.ResolvedCanBePublished | packages/provider/src/registry.ts:94-125 | what the resolver publishes can be indexed, so replacing never stops halfway |
| ProviderRegistry.IndexIsSearch | packages/provider/src/registry.ts:106-125 | indexing succeeds exactly without repeated ids, and then every lookup equals a search of the list |
| ProviderRegistry.RebuildIndexes | packages/provider/src/registry.ts:106-125 | the nested loops build the indexes or stop at the first duplicate |
| ProviderRegistry.Registry.Replace | packages/provider/src/registry.ts:94-99 | the revision grows by one and the view is replaced; indexes and event follow exactly on unambiguous lists |
| ProviderRegistry.Registry.GetProvider | packages/provider/src/registry.ts:66-68 | a search of the published list |
| ProviderRegistry.Registry.GetModel | packages/provider/src/registry.ts:70-72 | a search of the published list and of the provider's models |
| ProviderRegistry.Registry.ValidateSelection | packages/provider/src/registry.ts:74-159 | the first of the four checks that fails: provider, model, reasoning level given, reasoning level supported |
| ProviderRegistry.Registry.Publish | packages/provider/src/registry-service.ts:221-233 | resolving and replacing leaves view and indexes in agreement and tells the listeners |
| Quoting.QuoteAlways | release/ReleaseHost.cs:31-44 | the pass with a backslash counter writes the escaped argument |
| Quoting.QuoteWhenNeeded | tools/launcher/ZaicodeLauncher.cs:721-759 | the nested loops write the same, or the argument itself when nothing needs quotes |
| Quoting.Arguments | release/ReleaseHost.cs:46-51 | the quoted arguments joined by spaces |
| Quoting.EscapedParses | release/ReleaseHost.cs:31-44 | a quoted argument is parsed as itself, whatever precedes and follows it |
| Quoting.ArgumentsReturnExactlyWhen | tools/launcher/ZaicodeLauncher.cs:149 | parsing the joined line returns the list exactly when no argument contains a NUL, for both programs |

## Left out

- Event subscriptions of the channel client and server and of `packages/rpc/src/proxy-channel.ts`, except that event handlers take ids and entries in the client's handler map.
- Re-entrant sends: a send made by a listener while a frame is being handled is a step after that frame. Messages that do not come back as they were written (`Serialization.ReceivedExactlyWhen`) are not steps of `ChannelStack`.
- Precision of message numbers beyond 2^53; frame numbers are unbounded and reduced modulo 2^32 on the wire.
- Promise mechanics below a step: synchronous throws of a source's `read`, and the account service's `read`, which shares the promise in flight.
- A reply whose data `serialize` throws on, which leaves the server's request without one.
- Turns of the server's event loop below a step: `then` and `finally` of a call are two steps, and the flush timers of one channel are one pending turn.
- Copying: the buffer reader and writer hold octet sequences, so that a slice is a copy is not observable.
- Serialization of Node buffers, whose own JSON form comes first, of negative zero, NaN and infinities, and of functions and symbols; UTF-8 (RFC 3629), JSON text and base64 (section 4 of RFC 4648) are inverse pairs taken as given.
- Order of object keys in merge patches and the copies `cloneJson` makes: objects are maps and values are immutable.
- Numeric value of number literals, kept as text with a predicate for the JSON-safe ones; offsets of expressions; `packages/model-option-map/src/evaluator.ts`, whose arithmetic is floating point.
- Trimming of ids and endpoints, membership revisions and labels in `config-service.ts`; the model draft, which renames and otherwise leaves members and order alone.
- `ProviderConfigMap`, `ModelConfigRules` and the other classes under `packages/provider/src/config`: ordered keys with opaque payloads.
- The bundled-only fallback of `read` in `zcode-builtin-provider-config-source.ts:55-59`, which may return an older revision, and disposal between two operations under one lock.
- A control file damaged while leases are held: it reads as the empty record and admits a second lease.
- File watchers, real timers, file locks themselves, and all input and output.
- `ZaicodeSetup.Quote` in `install/setup/ZaicodeSetup.cs:155-159`, which does not double trailing backslashes and has no round trip.
- The first token of a command line, which the Microsoft C runtime parses by another rule.
- `packages/formal-proof`, installers, splash windows, rendering, HTTP, WebSocket and stdio wiring, telemetry and logging.
