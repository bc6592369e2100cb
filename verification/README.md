# A verified model of the Telegram proxy and the control state of Zapret GUI

This project models the parts of the program in which state is spread over many
collections, tasks or files, and proves what must hold whatever the network,
the scheduler, the disk or a crash does. `dafny verify dfyconfig.toml` checks
all of it. It needs no library.

## Layout

**The multiplexed request channel** (tgproxy/cf_h2.py). `ChannelState` holds the
fields of `_HttpChannel` as a value and every await-free piece of code as a
function on it. `HttpChannel` holds the classes, whose methods change the fields
in place and are proved against those functions. `ReplayHistory` is about the
retained packets. `Multiplex` puts many channels on one lane as a step system:
each await-free region is one step, time only grows, and an adversary chooses
the next step. `EndpointInvariant`, `EndpointSteps`, `MultiplexInvariant` and
`MultiplexRuns` build the invariant from small predicates; `MultiplexTheorems`
states what follows for every run. `MultiplexLog` is the same run as someone
outside sees it, event by event; `MultiplexReplies`, `MultiplexReplays` and
`MultiplexSends` say against that log what the receiver gets, when a packet is
due, and which request each step adds or gives up.

**Frames and ciphers.** `Obfuscation` treats AES-CTR as a keystream by key, IV
and position and SHA-256 as a function nobody looks inside; it holds the relay
handshake, the client handshake and the four ciphers. `Splitter` is
`MsgSplitter` against a recursive cut, `Bridge` the two directions of the
WebSocket bridge and the end-to-end statements, `PacketCodec` the native
framing of the HTTP channel.

**Wire codecs and flow control.** `WebSocketFrames` (sections 5.2 to 5.4 of
RFC 6455), `FakeTls` (section 5.1 of RFC 8446), and `H2Streams`, `H2Safety`,
`H2Theorems`, `H2Log`, `H2Connection` (sections 5.1.2 and 6.9 of RFC 9113), where the h2
library is windows, a stream counter and lists of events.

**Crash-safe and cancellable control state.** `SocketPool`, `PoolTheorems` and
`WsPool` (tgproxy/pool.py), `FileTransaction`, `FileBackups` and `DnsOverHttps` (zapret_core.py),
`RuntimeControl`, `RuntimeTheorems` and `Recovery` (zapret_runtime.py and the
workers of zapret_app.pyw).

`Common`, `Numbers` and `Streams` are shared vocabulary: sums over maps, bytes
as numbers, exclusive or, and a stream reader with short reads.

## Reading the main results

A state machine comes with a predicate `IsRun` over lists of states and events,
an invariant that every step keeps, and theorems about `states[k]` of any run.
Fields called `journal`, `ledger`, `uploaded`, `received`, `place` and the like
record what has happened; no step reads them. Where it matters what a step does
and not only what it keeps, the theorems compare the state with a reference that
the steps do not write: folds over the list of events (`MultiplexLog`, `H2Log`),
layouts octet by octet (`ClientFrame`, `IsFrame`, `IsRecordAt`), and conditions in
both directions.

Four results are exact conditions rather than plain promises, each with an
input on the failing side:

- A reply survives the native codec if and only if it is `Recoverable`
  (`PacketCodec.RoundTrip`; `TwentyEightBytesAreCut`).
- Replacing several files is all-or-nothing on a re-raised error if and only if
  no backup overwrites a listed file with other content
  (`FileTransaction.TornExactlyWhenBackupsCollide`; `AFileAndItsBackup`).
- After an incomplete rollback every previous content is in its backup if and
  only if no listed backup is at risk (`FileBackups.PreimagesKeptExactly`;
  `OrderMatters`).
- A completed stop is final, in every continuation up to a request for another
  state, if and only if it leaves no live early switch: one that took the stop's
  token and read `desired` between the two assignments of the request, and whose
  token is still valid (`RuntimeTheorems.StopIsFinal`; `EarlySwitchOutlivesStop`).

The classes hold more methods than the table names. Those that only do in place
what a one-line function of the value model says are tied to that function by
their contracts and have no row of their own.

## Model

| member | source | states |
|---|---|---|
| ReplayHistory.TrimKeeps | tgproxy/cf_h2.py:447-455 | Trimming ends, leaves at most 16 packets and 64 KiB, keeps order, keys and distinct bodies, and only removes packets. |
| ReplayHistory.TrimKeepsPacketJustSent | tgproxy/cf_h2.py:403-417 | If the last packet has a request in flight and alone fits the budget, trimming never evicts it. |
| ReplayHistory.EvictionsAreTheTrim | tgproxy/cf_h2.py:447-455 | The evictions of one trim follow each other, each from what the one before left, and the last leaves the result. |
| ReplayHistory.EvictionIsForced | tgproxy/cf_h2.py:447-455 | Of each eviction, at its own moment: the history is over budget, and the victim is the oldest evictable packet, or the oldest of all if every packet is in flight or a retired, unexpired one with attempts left. |
| ReplayHistory.RememberAddsAtMostOne | tgproxy/cf_h2.py:432-445 | Remembering a packet recalls an equal body, or adds exactly one packet at the end, or retains nothing; a change of encryption key empties the history first. |
| ReplayHistory.RememberKeepsOrder | tgproxy/cf_h2.py:432-445 | Remembering keeps the history ordered by sequence, with distinct bodies under one non-zero key. |
| EndpointSteps.DueReplayObeysRules | tgproxy/cf_h2.py:259-282 | A replay that passes the blocker keeps the rules of the log: at most 3 per packet, at least 2 s apart, within 30 s of the first send. |
| EndpointSteps.SendNativeKeeps | tgproxy/cf_h2.py:373-427 | Sending a native packet keeps every invariant of the channel: sums, ownership of tasks, history, replay log, order of replies. |
| EndpointSteps.SendReplayKeeps | tgproxy/cf_h2.py:373-427 | Sending a replay that is due keeps every invariant of the channel. |
| EndpointSteps.EndKeeps | tgproxy/cf_h2.py:457-524 | The end of a request, successful, failed or unwound by cancellation, keeps every invariant of the channel, by which the task is then in none of its collections. |
| EndpointSteps.RotateOutKeeps | tgproxy/cf_h2.py:221-257 | Giving up a request that is still inside `_post` keeps every invariant of the channel. |
| EndpointSteps.SweptKeeps | tgproxy/cf_h2.py:575-604 | The sweep at the end of close keeps every invariant of the channel, tasks cancelled before their first step included. |
| MultiplexRuns.CandidateIsSafe | tgproxy/cf_h2.py:208-219 | A capacity candidate is fully uploaded three seconds ago or more, has no response started, is still inside `_post`, and is a replay or the original of a retained packet sent within 30 s. |
| MultiplexRuns.RunsKeep | tgproxy/cf_h2.py:373-604 | Every state of every run of many channels on one lane, under any scheduling and any network, satisfies the system invariant. |
| MultiplexTheorems.CapacityIsExactlyOnce | tgproxy/cf_h2.py:373-427 | In every reachable state `pending_bytes` is the sum of `pending`, the lane counters are the number and bytes of reservations held, each reservation was made once and is released at most once, and 8 requests / 8 MiB per channel and 64 / 32 MiB per lane are never exceeded. |
| MultiplexLog.ChannelsKnowTheLog | tgproxy/cf_h2.py:683-707 | In every run the fields a channel decides by are what an outside log of clock, client and network says: the response buffered for a request is what arrived for it; a request counts as receiving exactly when its response has begun, and has an upload time exactly when its upload finished and no rotation gave it up; the last progress of an open channel is the last observed. |
| MultiplexReplies.QueueFollowsTheLog | tgproxy/cf_h2.py:457-500 | In every run each event does exactly this to the queue of an open channel: a body that completes is put behind what waits, byte for byte as it arrived, unless it is empty, unaligned or a transport error, or 16 items or 8 MiB would be exceeded; those, 4 MiB for one response, 32 MiB for the lane, any other error of a request and closing fail the channel, and leave only the error to receive. A closed channel is never given anything more. |
| MultiplexReplies.FailureIsTheFirst | tgproxy/cf_h2.py:345-355 | What failed a closed channel is the error that the event raised which closed it. |
| MultiplexReplies.RepliesAreDeliveredInOrder | tgproxy/cf_h2.py:567-573 | What the receiver of an open channel has had and what waits for it are together exactly the replies the network completed, in that order, as the log tells them; at the end comes at most one error, the one that closed the channel, and nothing after it; at most 16 items and 8 MiB wait. |
| MultiplexReplays.DueExactly | tgproxy/cf_h2.py:200-282 | `_replay_blocker` has no objection exactly when the packet is at most 30 s old with attempts left, the native side and all requests for it are idle, 2 s have passed since its last attempt, and it was given up, or an original has waited 3 s for its answer, or it is the newest packet with nothing else on the way and, after an attempt, 1 s without progress. |
| MultiplexReplays.DueExactlyByTheLog | tgproxy/cf_h2.py:259-282 | The same in every run, told from outside alone: by the clock, the uploads and answers of the log, and the replays made so far. |
| MultiplexReplays.ScansDecideAsDue | tgproxy/cf_h2.py:540-565 | In every run a scan decides on nothing exactly when no retained packet is due with a place for its replay; else on the packet that goes first, late ones before all, oldest first, then the newest, replacing exactly its own replay or the oldest unanswered one, and only after 30 s. |
| MultiplexReplays.DueIsNeverIgnored | tgproxy/cf_h2.py:540-565 | A packet that is due and not on the way, with fewer than two replays on the way, is never passed over. |
| MultiplexSends.UploadsWaitOnlyForRoom | tgproxy/cf_h2.py:373-389 | In every run an upload is let through as soon as its channel has room for it by count and by bytes, or is closed, and then the lane. |
| MultiplexSends.RequestsFollowTheLog | tgproxy/cf_h2.py:373-427 | In every run each step adds exactly the request it should: a grant of the lane sends what the client submitted last, once; a scan or the end of a replaced request sends its packet again exactly if it is due, not on the way, and fits; everything else sends nothing. Channel, lane and packet are charged with exactly that. |
| MultiplexSends.RotationsMakeRoom | tgproxy/cf_h2.py:208-257 | In every run a request is given up only for an upload that has no room, on its own channel or on any of a full lane; it was uploaded 3 s ago, is unanswered, and is a replay or the original of a packet at most 30 s old; replays go first, then the longest waiting. It is cancelled, an original retires its packet, and nothing else changes. |
| MultiplexSends.RoomIsMadeIfPossible | tgproxy/cf_h2.py:221-257 | Conversely, the recovery goes on without giving a request up only if no upload of its channel needs room or nobody who may lose a request has one that can be given up. |
| MultiplexSends.ReplacementsAreRetried | tgproxy/cf_h2.py:549-565 | A scan that replaces a replay cancels exactly that one, and its packet is tried again exactly when it is over. |
| MultiplexSends.PacketsRetireByRotation | tgproxy/cf_h2.py:221-257 | In every run a retained packet is retired exactly when one of its original requests was given up for room. |
| MultiplexTheorems.PacketsKnowTheirRequests | tgproxy/cf_h2.py:410-427 | In every run the originals of a retained packet are exactly the pending native requests sent for it, and its replay exactly the pending replay sent for it; no request belongs to two packets. |
| MultiplexTheorems.ClosedChannelsHoldNothing | tgproxy/cf_h2.py:575-604 | When all channels have finished closing, the lane holds no reservation and no buffered reply bytes, and every reservation ever made was released. |
| MultiplexTheorems.ReplayBudget | tgproxy/cf_h2.py:390-427 | In every run at most 2 replays are in flight per channel, 3 per packet, 2 s apart, within 30 s of the first send, and `replay_requests` is at most 3 times the native sends, evictions included; plaintext packets are never replayed. |
| MultiplexTheorems.HistoryIsBounded | tgproxy/cf_h2.py:429-455 | In every run the history has at most 16 packets and 64 KiB, distinct bodies, increasing sequence numbers and one and the same first eight bytes, not all zero. |
| MultiplexTheorems.EvictionsAreForced | tgproxy/cf_h2.py:403-417 | In every run the history after a native send is the trim of what the send handed to it; each eviction on the way happens at more than 16 packets or 64 KiB, and takes the oldest packet not worth keeping, or the oldest of all if every one has an original in flight or was given up and may still be sent again in time. |
| MultiplexTheorems.SendsRemember | tgproxy/cf_h2.py:403-445 | In every run a native send leaves the history alone for a packet in plaintext, empties it for another key, does not keep more than 64 KiB, and otherwise marks the packet with this body or adds one at the end, before trimming. |
| MultiplexTheorems.JustSentIsRetained | tgproxy/cf_h2.py:403-417 | In every run, an encrypted packet that fits is in the history after its send, with its request among the originals, whatever had to be evicted. |
| MultiplexTheorems.ReplyBuffersAreBounded | tgproxy/cf_h2.py:739-747 | `reply_buffer_bytes` is the sum over the live `_post` calls, at most 32 MiB, and no response body exceeds 4 MiB. |
| MultiplexTheorems.ClosingIsNeverStuck | tgproxy/cf_h2.py:575-604 | In every run a task that is not over can take a step, on a closing channel it has been cancelled and can unwind without anybody's answer, and when the tasks of a closing channel are over each pending request can be swept, which takes it off every account, and the close can finish, and is done then. |
| HttpChannel.HttpLane.TryReserve | tgproxy/cf_h2.py:651-663 | Grants a reservation exactly when there is room and the lane is open, and then counts it. |
| HttpChannel.HttpChannel.Fail | tgproxy/cf_h2.py:345-355 | The first failure closes the channel, empties the queue item by item and puts itself into it; later ones change nothing. |
| HttpChannel.HttpChannel.RememberPacket | tgproxy/cf_h2.py:432-445 | The new history, key and index are those of the specification function `Remember`. |
| HttpChannel.HttpChannel.TrimHistory | tgproxy/cf_h2.py:447-455 | The loop with the running byte count leaves exactly what the recursive `Trim` leaves. |
| HttpChannel.HttpChannel.FindVictim | tgproxy/cf_h2.py:450-453 | The first evictable packet, or the oldest if there is none. |
| HttpChannel.HttpChannel.AdmitNative | tgproxy/cf_h2.py:390-427 | The await-free tail of a native send updates every collection as `AdmitNative` says and returns the packet it belongs to. |
| HttpChannel.HttpChannel.TryReplay | tgproxy/cf_h2.py:357-427 | A replay is refused, raises or is sent under the same conditions as the source, and changes nothing unless it is sent. |
| HttpChannel.HttpChannel.FindCandidate | tgproxy/cf_h2.py:208-219 | One pass finds the oldest finished upload that may be rotated, or none if there is none. |
| HttpChannel.HttpChannel.ScanHistory | tgproxy/cf_h2.py:526-565 | The scan over the retained packets decides on a replay, a replacement or nothing, in the priority order of the source. |
| HttpChannel.HttpChannel.OldestIdleReplay | tgproxy/cf_h2.py:551-555 | An idle replay is found exactly when there is one. |
| HttpChannel.HttpChannel.FinishRequest | tgproxy/cf_h2.py:502-524 | The task leaves every collection, and its reservation goes back to the lane exactly when it was still pending. |
| HttpChannel.HttpChannel.SweepOne | tgproxy/cf_h2.py:591-592 | One turn of the sweep removes one pending task and gives back exactly its share of the lane. |
| HttpChannel.HttpChannel.SweepAndClear | tgproxy/cf_h2.py:575-604 | After the sweep nothing is pending, and the lane has lost exactly what the channel held. |
| PacketCodec.HeaderRoundTrip | tgproxy/cf_h2.py:106-143 | The header written before a reply is read back in all three framings, with no quick-acknowledgement bit. |
| PacketCodec.UnpadExactly | tgproxy/cf_h2.py:121-130 | Up to fifteen bytes of padding come off exactly when the body is encrypted with (length - 24) divisible by 16 or plaintext with a correct inner length. |
| PacketCodec.RoundTrip | tgproxy/cf_h2.py:106-143 | `_read_packet` returns the body `_encode_reply` framed, whatever the padding and whatever follows, if and only if the body is recoverable: 24 bytes or more and, when padded, of a length that can be told. |
| PacketCodec.TwentyEightBytesAreCut | tgproxy/cf_h2.py:121-130 | The failing side: every encrypted body of 28 bytes in a padded frame comes back as its first 24, whatever the padding. |
| PacketCodec.ClientFramesAreRead | tgproxy/cf_h2.py:106-132 | Of a client's frame, laid out octet by octet in each transport, quick or not: refused at its header if its length is out of range; waited for while it is cut short anywhere; otherwise its body and its quick bit come out if and only if the body is recoverable. |
| PacketCodec.RepliesAreFrames | tgproxy/cf_h2.py:135-143 | What `_encode_reply` writes is such a frame, octet by octet, without the quick bit. |
| PacketCodec.StreamRoundTrip | tgproxy/cf_h2.py:106-143 | Any concatenation of such frames is read back body by body, and then the end of the stream is reported. |
| PacketCodec.SplitterAgrees | tgproxy/cf_h2.py:106-132 | Where `_read_packet` accepts a packet, `MsgSplitter` finds a frame of the same length; where it needs more bytes, so does the splitter. |
| PacketCodec.SplitterAgreesOnStreams | tgproxy/cf_h2.py:106-132 | A stream of acceptable packets is cut by the splitter exactly where it is read. |
| PacketCodec.SplitterSeesFrames | tgproxy/bridge.py:108-145 | The splitter finds every such frame whole, waits while it is cut short anywhere, and reports length zero for an empty one. |
| PacketCodec.ReadPacket | tgproxy/cf_h2.py:106-132 | Reading piece by piece through the stream and the cipher returns what the specification decodes, and leaves stream and cipher behind the packet. |
| PacketCodec.Upload | tgproxy/cf_h2.py:941-947 | The upload loop reads exactly the packets of the decrypted stream, up to the first that cannot be read. |
| Obfuscation.CryptTwice | tgproxy/tg_ws_proxy.py:204-245 | Encrypting and decrypting in CTR mode at the same keystream position cancel out. |
| Obfuscation.DifferenceIsKeystream | tgproxy/tg_ws_proxy.py:92-98 | What encryption changes, bit by bit, is the keystream under that key and IV at that position. |
| Numbers.XorIsBitwise | tgproxy/raw_websocket.py:41-47 | Each bit of the exclusive or of two numbers is set exactly when their bits differ. |
| Obfuscation.GenerateRelayInit | tgproxy/tg_ws_proxy.py:71-102 | The loop takes the first block that is not reserved and patches its tail so that the cipher at offset 56 decrypts it to tag, signed data centre and two more bytes; a number out of range is an error. |
| Obfuscation.UpstreamReadsTheRelayInit | tgproxy/tg_ws_proxy.py:71-102 | The generated init keeps bytes 0 to 55, still starts like no reserved protocol, and decrypts at 56 to 61 to the tag and the signed data centre. |
| Obfuscation.UnreservedLooksLikeNothing | tgproxy/tg_ws_proxy.py:72-81 | A block is drawn again exactly if it starts like HEAD, POST, GET, a TLS hello or another transport, or has four zero bytes at 4. |
| Obfuscation.HandshakeOctets | tgproxy/tg_ws_proxy.py:44-68 | `_try_handshake` reads the tag at 56 and the signed number at 60, under the key SHA-256 of bytes 8 to 39 and the secret and the IV at 40, and refuses every other tag. |
| Obfuscation.CiphersComeFromTheHandshakes | tgproxy/tg_ws_proxy.py:204-245 | The four ciphers byte by byte: upwards key at 8 and IV at 40, downwards the same 48 bytes backwards, towards the client hashed with the secret; the upward ones stand at 64, the downward ones at 0. |
| Obfuscation.HandshakeRoundTrip | tgproxy/tg_ws_proxy.py:44-68 | `_try_handshake` recovers tag, absolute data centre and media flag from every init built with the secret-mixed key, and refuses it exactly when the tag is unknown. |
| Obfuscation.EveryAcceptedDcFits | tgproxy/tg_ws_proxy.py:272-295 | For every accepted handshake the remapped number fits a signed 16-bit field and is read back; its sign shows the media flag exactly when the connection is not media or the mapped number is not zero. |
| Obfuscation.MediaOfTestCentreZeroIsLost | tgproxy/tg_ws_proxy.py:272-295 | The failing side: media of test data centre 10000 is accepted and relayed as number zero, without its sign. |
| Obfuscation.ReencryptionIsTransparent | tgproxy/tg_ws_proxy.py:204-245 | What one side encrypted, the other side decrypts after re-encryption, if the ciphers stand where the sides do. |
| Splitter.FrameLenIsStable | tgproxy/bridge.py:108-145 | A frame length, once known, does not change when more bytes arrive. |
| Splitter.CutExtends | tgproxy/bridge.py:67-98 | Cutting what has arrived and then what follows is cutting the whole; after a zero-length header nothing more is cut. |
| Splitter.CutKeepsBytes | tgproxy/bridge.py:67-98 | Frames and rest are the stream. |
| Splitter.CutIsParse | tgproxy/bridge.py:67-145 | The parts cut from ciphertext decrypt to the frames of one recursive parse of the plain stream. |
| Splitter.ParsedAreFrames | tgproxy/bridge.py:108-145 | Each part of a parse is not empty and announces exactly its own length. |
| Splitter.ChunksDoNotMatter | tgproxy/bridge.py:67-106 | For every chunking the parts up to the first zero-length header are those of the whole stream, and what follows it is passed on; disabled means empty buffers. |
| Splitter.PassedOnAsTheyCome | tgproxy/bridge.py:67-106 | The chunk that completes a zero-length header ends in one part with all that is left, and every later chunk is a part of its own. |
| Splitter.PartsAreTheStream | tgproxy/bridge.py:67-106 | All parts and the flushed tail concatenate to the stream. |
| Splitter.MsgSplitter.constructor | tgproxy/bridge.py:57-65 | The decryptor has the relay key and IV of the init and stands at keystream offset 64. |
| Splitter.MsgSplitter.Split | tgproxy/bridge.py:67-98 | The offset walk with one trailing deletion does what deleting each frame from the front does. |
| Splitter.MsgSplitter.Flush | tgproxy/bridge.py:100-106 | Returns the buffered tail, if any, and empties the buffers. |
| Bridge.PiecesAreTheStream | tgproxy/bridge.py:346-393 | Re-encrypting chunk by chunk re-encrypts the stream. |
| Bridge.TcpToWs | tgproxy/bridge.py:346-393 | The frames taken by the WebSocket are those of the specification `Upload`, with the tail flushed only when the client closes; when a send fails, they are those of the chunks before it. |
| Bridge.UpstreamReadsTheClient | tgproxy/bridge.py:346-393 | For every secret, pair of handshakes, chunking and splitter, what the upstream decrypts from offset 64 is the plaintext the client sent behind its init. |
| Bridge.EachPartIsOneClientFrame | tgproxy/bridge.py:67-98 | With the splitter the parts before a zero-length header decrypt, one by one, to the frames of one parse of the client's plaintext. |
| Bridge.WsToTcp | tgproxy/bridge.py:395-416 | The download is the re-encryption of the concatenated messages. |
| Bridge.ClientReadsTheUpstream | tgproxy/tg_ws_proxy.py:204-245 | The client decrypts, with the reversed halves of its handshake, what the upstream encrypted for the proxy. |
| WebSocketFrames.XorMaskIsBytewise | tgproxy/raw_websocket.py:41-47 | The big-integer form masks octet i with mask octet i mod 4, as section 5.3 of RFC 6455 says. |
| WebSocketFrames.MaskingUndoesItself | tgproxy/raw_websocket.py:41-47 | Masking twice with one key gives the data back. |
| WebSocketFrames.BuiltFramesAreFrames | tgproxy/raw_websocket.py:255-272 | A frame octet by octet as sections 5.2 and 5.3 of RFC 6455 lay it out: FIN and opcode, mask bit and length in the shortest of three forms in network order, key, masked payload. |
| WebSocketFrames.FrameRoundTrip | tgproxy/raw_websocket.py:255-290 | Reading undoes building, masked or not, in all three length encodings of section 5.2 of RFC 6455, whatever follows; a frame over 16 MiB is refused. |
| WebSocketFrames.FragmentsAreReassembled | tgproxy/raw_websocket.py:175-218 | Any fragmentation of a message with pings, pongs and unknown frames in between is rebuilt, every ping is answered with its own payload, and the input behind it is untouched; over 16 MiB it fails. |
| WebSocketFrames.QuietFramesPass | tgproxy/raw_websocket.py:175-218 | Frames that end nothing are taken in: data is kept, pings are answered in order, and receiving goes on behind them. |
| WebSocketFrames.CloseEndsReceiving | tgproxy/raw_websocket.py:179-191 | A close ends receiving wherever it comes: it is answered with at most the first two bytes of its payload, and the socket is closed from then on. |
| WebSocketFrames.MessagesAreBounded | tgproxy/raw_websocket.py:175-218 | No message returned is longer than 16 MiB, and the connection is closed exactly when a close was reported. |
| WebSocketFrames.RawWebSocket.Send | tgproxy/raw_websocket.py:160-165 | Writes one final masked frame of opcode 2, octet by octet as above, or reports an error when it cannot be written or the socket is closed. |
| WebSocketFrames.RawWebSocket.ReadFrame | tgproxy/raw_websocket.py:274-290 | Reading the header piece by piece decodes the frame at the front of the stream and leaves what follows it. |
| WebSocketFrames.RawWebSocket.Receive | tgproxy/raw_websocket.py:175-218 | The loop does what the recursive specification of `recv` says, the answers it writes included. |
| FakeTls.WrapTlsRecord | tgproxy/fake_tls.py:113-124 | Writes, octet by octet, 17 03 03, the length in network order and the next 16384 bytes of the data, record after record, with one shorter record for the rest: never an empty one, which the reader would take for the end. |
| FakeTls.RecordCarries | tgproxy/fake_tls.py:159-186 | What the reader gets out of one record and what follows it: CCS is skipped, an empty or foreign record ends the stream. |
| FakeTls.WireCarriesWhatWasWritten | tgproxy/fake_tls.py:113-186 | For any writes and any CCS records between them, the stream carries exactly the bytes written, in order. |
| FakeTls.FakeTlsStream.ReadTlsPayload | tgproxy/fake_tls.py:159-186 | Returns the next pending bytes, however short the socket reads are, and none only when none are pending. |
| FakeTls.FakeTlsStream.ReadSome | tgproxy/fake_tls.py:146-157 | Returns a beginning of what is pending, and for a positive size nothing only when nothing is pending. |
| FakeTls.FakeTlsStream.ReadExactly | tgproxy/fake_tls.py:136-144 | Succeeds exactly when that many bytes are pending, and then returns the first of them. |
| FakeTls.ReadMix | tgproxy/fake_tls.py:136-186 | Every mix of the two reads returns the pending bytes in order, without loss or repetition, and comes up short only when too few are left. |
| H2Theorems.RunsKeep | tgproxy/h2_transport.py:119-270 | Every state of every run of requests, event batches, failures and closes satisfies the connection invariant. |
| H2Theorems.RunnableTasksCanRun | tgproxy/h2_transport.py:172-250 | The guards that make a turn of a request well defined block no request that is neither suspended nor at its end. |
| H2Theorems.NoLostWakeup | tgproxy/h2_transport.py:172-211 | Whoever is suspended has nothing to do now: in `reserve` there is no room, an upload has a window or a frame size of zero, no headers or no data have come; and nobody sleeps over an error. |
| H2Theorems.AdmissionIsSafe | tgproxy/h2_transport.py:172-188 | Streams never exceed the limit; one is added only by an admission, with room under the peer's limit too, under the next odd number, above all in the table. |
| H2Theorems.NumbersOnlyGrow | tgproxy/h2_transport.py:172-188 | Stream numbers strictly increase from admission to admission (section 5.1.1 of RFC 9113). |
| H2Theorems.UploadsAreFaithful | tgproxy/h2_transport.py:190-211 | Concurrent uploads each send a beginning of exactly their own body, all of it when the stream is finished, and DATA in total never exceeds the credit granted (section 6.9 of RFC 9113). |
| H2Log.ConnectionKnowsTheLog | tgproxy/h2_transport.py:119-160 | In every run what the connection holds is what the frames said: the data received for a stream are exactly the DATA that arrived for it before a GOAWAY, none dropped and none twice; headers, end and reset are as told; a failure is an error exactly for streams that had not ended; credit is the initial window in force and the updates; limits are those of the last settings. |
| H2Log.ReadersGetEverything | tgproxy/h2_transport.py:48-59 | In every run a reader gets exactly the DATA that arrived, in order: the next piece if one waits, else the end if the stream has ended, and then it has had all of it; an error comes before either. |
| H2Log.RequestsDoTheirPart | tgproxy/h2_transport.py:172-250 | In every run a request takes a stream as soon as both limits leave room, sends the largest piece that chunk, frame and both windows allow, finishes its stream after the last chunk, reads once there are headers, sleeps exactly when it can do none of it, and gives its stream back on an error. |
| H2Theorems.StreamsStayWithinCredit | tgproxy/h2_transport.py:193-208 | On every stream the window is the credit granted less the DATA sent, never more is sent than was granted at some time, and a step that sends ends within the credit granted then (section 6.9 of RFC 9113). |
| H2Safety.SendOk | tgproxy/h2_transport.py:193-208 | A piece sent is positive, fits both windows, and leaves both of them non-negative. |
| H2Theorems.ReceiveCreditIsConserved | tgproxy/h2_transport.py:119-158 | While a stream is open its window, the buffered credit and the credit in the reader's hands are 256 KiB together, so buffering is bounded; the connection window is 4 MiB after every batch, however slow the readers. |
| H2Theorems.EndedResponsesSurviveFailure | tgproxy/h2_transport.py:109-117 | A response that had ended before the connection failed can still be read to its end. |
| H2Safety.WideningWakes | tgproxy/h2_transport.py:127-159 | If a batch is handled without setting the connection event, it widened no window and changed no limit. |
| H2Connection.Connection.Fail | tgproxy/h2_transport.py:109-117 | The first error marks every unfinished stream and wakes everybody; later ones change nothing. |
| H2Connection.Connection.TryReserve | tgproxy/h2_transport.py:175-183 | One turn of `reserve`: an error after a failure, a stream if there is room, else nothing yet. |
| H2Connection.Connection.Next | tgproxy/h2_transport.py:48-59 | One turn of the iteration: credit in hand goes back, then an error, the next chunk, the end or a wait. |
| H2Connection.Connection.HandleEvent | tgproxy/h2_transport.py:127-158 | One event changes the connection as the specification says. |
| H2Connection.Connection.ReadTurn | tgproxy/h2_transport.py:121-160 | The loop over a batch does what the recursive specification says, and stops at a GOAWAY. |
| H2Connection.Connection.SendBody | tgproxy/h2_transport.py:190-211 | Whatever others do at its awaits, a normal end has sent the whole body in order and finished the stream; every other end has sent a beginning of it and comes with an error or for want of credit. |
| SocketPool.RunsKeep | tgproxy/pool.py:33-232 | Every state of every run of gets, rotations, resets and refill turns satisfies the pool invariant. |
| SocketPool.EverySocketHasOnePlace | tgproxy/pool.py:77-128 | Each socket a refill obtained is exactly one of idle in one bucket, in the hands of one refill that has not ended, handed out, or closed, resets racing with refills included. |
| SocketPool.BucketsAreBounded | tgproxy/pool.py:77-128 | A bucket and what its refill may still add never exceed the pool size. |
| SocketPool.OneRefillPerKey | tgproxy/pool.py:67-75 | At most one refill per key is registered; any other is cancelled, cleaning up or over. |
| PoolTheorems.EventsDoTheirPart | tgproxy/pool.py:33-232 | In every run a get closes the stale sockets at the front and hands out the first good one; a rotation keeps the good ones in order and closes the others; both ask for a refill exactly when there is room and none is under way; a refill opens as many connections as its bucket lacks, adopts every socket while it is the registered one and closes the rest; a reset closes all that is idle and cancels every refill under way. |
| SocketPool.TakeKeeps | tgproxy/pool.py:91-99 | Adopting a socket keeps the invariant, and a refill that gets so far is always the registered one. |
| SocketPool.ResetKeeps | tgproxy/pool.py:211-227 | A reset at any moment keeps the invariant. |
| SocketPool.DeliverKeeps | tgproxy/pool.py:119-128 | A cancellation keeps the invariant wherever it finds the refill, in its `finally` block included. |
| WsPool.WsPool.Get | tgproxy/pool.py:33-60 | The popping loop closes the stale sockets at the front, hands out the first good one and schedules a refill. |
| WsPool.WsPool.Rotate | tgproxy/pool.py:136-161 | Keeps the good sockets in order, closes the stale ones, and schedules a refill when there is room. |
| WsPool.WsPool.Reset | tgproxy/pool.py:211-227 | Cancels every registered refill, closes every idle socket and forgets everything. |
| FileTransaction.AllOrNothing | zapret_core.py:800-829 | Whatever fails: on success all files are new; on a re-raised error all are as before, and after an incomplete rollback each is old or new, if no backup overwrote a listed file with other content; nothing else is touched. |
| FileTransaction.TornExactlyWhenBackupsCollide | zapret_core.py:800-829 | The promise that a re-raised error leaves all files as before holds for every pattern of failures if and only if no listed path is the backup path of an existing listed file with other content. |
| FileTransaction.AFileAndItsBackup | zapret_core.py:809-811 | A concrete pair of paths for which the promise fails. |
| FileTransaction.DoneExactlyWhenNothingFails | zapret_core.py:800-829 | The transaction succeeds if and only if none of the operations it tries fails. |
| FileTransaction.RollBackTriesEach | zapret_core.py:815-829 | Rolling back tries every replaced file, the last first, whatever fails in between; each is restored unless its own operation fails. |
| FileTransaction.RollBackReportsFailures | zapret_core.py:815-829 | The rollback is reported complete if and only if none of its operations fails. |
| FileBackups.PreimagesKeptExactly | zapret_core.py:809-829 | After an incomplete rollback every previous content is in its `.backup`, for every pattern of failures, if and only if no listed backup path of an existing listed file is at risk: followed by another file, and given other data or, with three files or more, other content before. |
| FileBackups.OrderMatters | zapret_core.py:809-829 | A file listed before its own backup keeps the promise; listed after it, it does not. |
| FileTransaction.FileSystem.WriteTransaction | zapret_core.py:800-829 | The loops over the disk do what the specification `Transaction` says, rollback in reverse order included. |
| DnsOverHttps.MergedSnapshotIsOriginal | zapret_core.py:1988-1993 | Adding unknown adapters to the snapshot in a safe state adds original values, and then every adapter seen is saved. |
| DnsOverHttps.Machine.Apply | zapret_core.py:1942-1974 | Touches only adapters of the snapshot, each of which may fail and be left with anything, and reports success if and only if the snapshot is valid and no effect fails; then all have their value; every state on the way is safe. |
| DnsOverHttps.Machine.Prepare | zapret_core.py:1977-1998 | Everything looked at before the first write succeeds if and only if the provider is known, nothing is pending, adapters are up and readable, and the saved snapshot is there if needed, sound, and under its old indices. |
| DnsOverHttps.Machine.DohEnable | zapret_core.py:1977-2009 | Succeeds if and only if that holds and no effect fails; then DoH is enabled and all adapters seen use the provider. Refused, it changes nothing; undone, all adapters are as before; every state a crash can leave behind is safe. |
| DnsOverHttps.Machine.Undo | zapret_core.py:2002-2008 | Succeeds if and only if no effect fails, and then all adapters have the values found, nothing is pending, and the snapshot is dropped only when those are the originals. |
| DnsOverHttps.Machine.DohDisable | zapret_core.py:2012-2033 | Succeeds if and only if there is a valid snapshot and no effect fails; then all adapters are original and nothing is pending. Every state a crash can leave behind is safe. |
| DnsOverHttps.Machine.Session | zapret_core.py:1977-2033 | Across any sequence of enabling, switching and disabling, with failures anywhere and a crash after any effect: an adapter that differs from its original has it in the durable snapshot, and neither enabled nor pending means all original. |
| RuntimeTheorems.TokensNeverRevive | zapret_runtime.py:20-31 | An invalid token never becomes valid again. |
| RuntimeTheorems.StopIsFinal | zapret_app.pyw:1804-1823 | Take the step, in any run, that completes the body of a stop that no other state was requested after. Until another state is requested, the owned process stays away and stopped stays wanted, in every continuation, if and only if that state has no live early switch: a switch with the stop's own, still valid token that read `desired` before the request stored it and now waits for the lock. |
| RuntimeTheorems.EarlierWorkersNeverStart | zapret_app.pyw:1739-1751 | After a stop has completed, no worker with an earlier token ever holds the lock or starts the process again, whatever is requested later. |
| RuntimeTheorems.CompletionEnds | zapret_app.pyw:1812-1821 | When the body of a stop in force completes, every worker but a live early switch is harmless. |
| RuntimeTheorems.StepKeepsEnded | zapret_runtime.py:20-53 | Once all workers are harmless, every step but a request for another state leaves them so, new workers and new requests included. |
| RuntimeTheorems.SwitchStarts | zapret_app.pyw:2123-2141 | A switch past its look starts the process in four steps if its token is valid, the lock is free and no service is wanted. |
| RuntimeTheorems.StartStarts | zapret_app.pyw:1739-1751 | A start with a valid token and the lock free ends, undisturbed, with the process running. |
| RuntimeTheorems.StopStops | zapret_app.pyw:1811-1823 | A stop ends, undisturbed, with neither the process nor a trial running, and noted as completed; one that fails after ending the process leaves none running either. |
| RuntimeTheorems.RefusedStartsStayDown | zapret_app.pyw:1739-1751 | A start that finds the service or a foreign process leaves the service, or nothing, as what is wanted, and a later restart by the watchdog does not start the process. |
| RuntimeTheorems.RestartRestarts | zapret_app.pyw:2031-2045 | A restart ends, undisturbed, with the process running again if it is the process that is wanted. |
| RuntimeTheorems.SearchRestores | zapret_app.pyw:2964-3052 | A search, undisturbed, stops the process it finds and starts it again at its end; it starts none it did not find. |
| RuntimeTheorems.OutdatedWorkersDoNothing | zapret_runtime.py:43-50 | A worker whose token is over changes nothing but its own place any more, and is over once it has had the lock. |
| RuntimeTheorems.EarlySwitchOutlivesStop | zapret_app.pyw:2123-2141 | A concrete run to a completed stop with a live early switch, and on to the process running again. |
| RuntimeControl.TurnFine | zapret_app.pyw:1739-1821 | The shape of every worker's every piece: who may take the lock, and that only a worker past its last check starts the process. |
| RuntimeControl.RunsKeep | zapret_runtime.py:20-57 | Every state of every run of requests and workers satisfies the invariant of lock, tokens and desired state. |
| Recovery.RuntimeController.Request | zapret_runtime.py:20-28 | Refused when another token was expected; otherwise the old token is over, the new one is valid unless closed, and the desired state changes only if given. |
| Recovery.RuntimeController.SetDesired | zapret_runtime.py:33-36 | Only the valid token changes what is wanted. |
| Recovery.RuntimeController.Close | zapret_runtime.py:55-57 | Closing sets the event of the token in force, and no token is valid afterwards. |
| Recovery.CandidatesAreNew | zapret_app.pyw:2065-2071 | The candidates are exactly the known presets in the pool, or all with research on, without the original and without earlier failures. |
| Recovery.CandidatesKeepOrder | zapret_app.pyw:2065-2071 | They come in the order of the pool, and with research on the others follow in the order of the presets. |
| Recovery.VerifiedMeansReached | zapret_app.pyw:2080-2089 | A verified measurement of any host at all reached every host each time; with no host to probe, nothing measured counts as verified, as in the source. |
| Recovery.Watchdog.SwitchTo | zapret_app.pyw:2123-2151 | With the token still valid, the outcome is exactly what the world answers: nothing for an unknown preset or when stopped is wanted, an error if it cannot be installed or started, else active, and whether it runs; superseded only when the token is invalid. |
| Recovery.Watchdog.TryCandidate | zapret_app.pyw:2076-2103 | With the token still valid, a candidate that comes up, has every host reliable, still runs and can be noted in the settings is active, running and noted afterwards; after any other the original runs again, or an error is raised because it does not. |
| Recovery.Watchdog.Recover | zapret_app.pyw:2059-2106 | On a normal return with the token still valid the candidates were tried in order, each once, up to the first good one, or one that found the network down, or all; a good one stays, in the settings too, otherwise the original runs; exactly those that were tried and went on are noted as failed. An error means that the token is over, or that the original did not come back. |
| Recovery.Watchdog.Search | zapret_app.pyw:2076-2106 | The loop itself, stated the same way for any list of known candidates. |
| Streams.StreamReader.Read | tgproxy/fake_tls.py:159-186 | A socket read returns a non-empty beginning of what is left, or nothing at the end. |

## Left out

- Diagnostics, statistics and logging of tgproxy/cf_h2.py (`_RequestTrace`, `_wait_state`, `_request_detail`, `_flow_state`, `log_wait`, `log_flow`), tgproxy/network_debug.py and tgproxy/stats.py: they read state and decide nothing. `pending_since` and `recovery_wakeup` are left out with them, since they affect only how soon a step comes.
- Time in the channel is an integer number of milliseconds; the source compares floating-point seconds.
- `_HttpLane._reserve` and `_release` are one step each: the condition's lock is taken as uncontended. Each channel has one native uploader and one `_recover` task, as `bridge_h2` creates them.
- `_ReplayPacket` objects are values found again by their sequence number, so two references to one packet are not modelled as aliases.
- Where the source sorts by a key with ties, the model leaves the choice among equals open. `task.done()` in `_capacity_candidate` is omitted: a finished task is not in `sent_since`.
- Liveness that depends on the network answering: only safety, bounds and local termination are stated. In particular nothing says that a rotated original has replay attempts left.
- Lane preflight, host selection, cooldowns and `CfH2Pool` (tgproxy/cf_h2.py:635-646 and 849-930), route selection (`do_fallback`), the TCP fallbacks, the domain balancer and argument parsing: thin branching, randomness and I/O.
- AES, SHA-256, HMAC, TLS, httpx and the h2 library itself: foreign code. The h2 library is assumed to refuse DATA beyond the receive windows, to refuse frames on streams that were never opened, and to report every frame it accepts; DATA it handles alone on streams it has reset does not appear. Sending request headers is part of the admission step and is assumed to succeed.
- H2Theorems.NoLostWakeup: models `wait_for` as awaiting in place, as the shim for Python 3.11 and later versions do; a version that wraps the awaited coroutine in a task of its own is not covered.
- Bridge.TcpToWs: of a send that fails, the frames that still reached the transport are not modelled; those listed are the frames of the sends that succeeded.
- The opening handshake of tgproxy/raw_websocket.py and its `close` are not part of the model.
- The TLS hello exchange of tgproxy/fake_tls.py and the masking relay are foreign protocol text and I/O.
- `_rotating` and the backoff times of tgproxy/pool.py: a rotation may happen at any time and a refill may be due or not, as an adversary chooses; keys without a redirect address and a changing `pool_size` are not modelled. Cancellation of a refill by anything but `reset`, and sockets lost inside an unfinished connection attempt, are foreign to the model. `_CfWorkerPool` is not modelled.
- Connection objects of `_Connection.streams` and the buckets of the pool are values in a map, identified by number: aliasing between a stream object and the table is not captured.
- FileTransaction.AllOrNothing: paths are compared as strings, an atomic write has all of its effect or none, and exceptions that are not errors of the file system do not occur during a rollback. When a backup does overwrite a listed file, what the files hold afterwards is stated only by `FileBackups.PreimagesKeptExactly`.
- DnsOverHttps.Machine.DohDisable: the branch for snapshots of old versions (`legacy_mode`) is left out, the set of adapters is fixed, and an adapter that has vanished is not modelled; the source skips it and does not restore it. Damaged settings files, which the source replaces by defaults, are left out too.
- The gap in `RuntimeTheorems.StopIsFinal` needs a thread held up inside `request` for as long as a reader takes from the token to `desired`; in the source the readers wait for seconds in between. How likely that is, is not modelled.
- Workers that only talk to the Windows service never start the owned process and appear only as branches; what the service does is not modelled.
- Recovery.Watchdog.Recover: the restart branch (zapret_app.pyw:2107-2121) is not modelled. When the settings cannot be written for a good candidate, the settings in memory keep its name although the original runs again, as in the source. With no recovery hosts, which settings that name no known service can cause, a preset that nobody probed counts as verified, as it does in the source, where `all()` over no results is true; `Recovery.VerifiedMeansReached` says so.
- Windows, tray, wizard, updater, registry and PowerShell text, DNS script generation, diagnostics page, log handling: I/O and user interface.
- Small pure helpers (`tokenize`, `build_args_str`, `normalize_port_ranges`, `prioritize_presets`, `select_candidates`, `result_is_better`, `run_search`, domain normalisation, version tuples) would only add easy members.
