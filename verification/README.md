# RivetLink, modelled and proved in Dafny

RivetLink shows and controls a remote Linux desktop, over the local network or through a relay.
This project models the parts of it that keep state or run a protocol, and proves what holds over
whole runs: for every input, every interleaving of tasks and threads, and every behaviour of the
network that the model admits.

`dafny verify dfyconfig.toml` checks the project (Dafny 4.11).

## How it is built

Each protocol is a state machine. A step is one atomic action of one task, `Apply(s, e)` is total
(an event that cannot happen changes nothing), and a run is any sequence of events, so every
theorem about `Run(events)` covers every interleaving. Objects that the source updates in place
are classes whose methods are proved against the same step functions. What lies outside the
program (clock, codec, queue room, random bytes, what a peer sends) comes in as arguments.

| module | what it models |
|---|---|
| `H264`, `VideoPipeline`, `CaptureFlow`, `ViewerFeed`, `KeyframeDelivery` | encoder, two-slot queue, forwarder, socket, lossy broadcast, keyframe gate; what a viewer is given and when a waiting one is woken |
| `TileDelta`, `TileRecovery` | tile-difference encoder and the viewer's canvas; how long a wrong tile stays wrong |
| `Bytes`, `Base64`, `Crypto`, `Transcripts` | byte formats and ideal primitives |
| `Sealed`, `SealedDelivery` | the directional sealed channel, sealed by many threads over a hostile network |
| `Direct`, `Agreement` | key-mode and password-mode handshakes, and what confirmation proves |
| `PinStore`, `Downgrade` | the store of hybrid-capable hosts and key-mode connects over a process run |
| `Desktop`, `Grants`, `CallOutcomes`, `EndNotices`, `Refusals` | takeover of the desktop stream and display switching, broker and worker composed; which calls get a stream, late end notices and refused starts |
| `Tunnels`, `TunnelHost`, `TunnelDelivery`, `TunnelSessions` | byte streams through the relay, multiplexed on one link; what must be delivered |
| `Share`, `SharedFolder`, `UploadRun`, `Transfer` | shared-folder paths, uploads and downloads |
| `HostSession`, `Admission`, `SessionLife`, `ControlRun` | the relay host's session and console-input machine, whom it serves, from when to when a session is open, and a whole control session |
| `RelayJson`, `RelaySession`, `RelayRun` | the client of a relay session, the packet texts in the transcript, what both ends agree on, and sessions end to end |
| `Stun`, `HeldInput` | STUN response parser, release of held keys and buttons |

Assumptions that the theorems rest on: signatures, hashing for keys, key derivation, X25519,
ML-KEM, SPAKE2 and the AEAD are ideal (terms that differ when their inputs differ, and a log of
what was sealed and signed); the hash of a client's hello is any function to 32 bytes, and the
agreement theorem names the collision that would break it. An encoder's first output is a
keyframe and every delta refers to the output before it. Worker requests are not cancelled half
way. Session ids on the relay are not reused. Ephemeral keys are never drawn twice. File-system
calls fail only where the tree itself or the limit of 255 bytes on one name forbids them.

Results where the code does less than one might expect:

- A keyframe request can be merged into one already written, whose answer may be the keyframe that
  was just lost. `RequestWakesExactly` says when an asking viewer can still be woken with nothing
  new asked for or going wrong; `StrandedViewerIsNotWoken` is a run in which it cannot.
- The end notice of an older stream can reach a viewer whose stream was started later, and lowers
  the broker's flag under it, exactly when that stream still had a task or an unread notice at the
  subscription (`OlderNoticeLandsExactly`, a run in `OldNoticeEndsTheNewStream`).
- A claim can be refused by the worker after it took the desktop over, exactly when a stream task
  still runs and no stop holds the request lock or waits for it (`StartCanBeRefusedExactly`, a run
  in `OvertakingClaimIsRefused`).
- `finish_upload` leaves its part file behind, with no I/O failure, exactly when the upload is
  complete and all ten thousand candidate names exist (`LeftBehindExactly`, such a folder in
  `CrowdedFolderKeepsThePart`).
- A finished upload can be downloaded under its reported path exactly when numbering did not push
  that path over the 1024 bytes of a path (`UploadedFileDownloads`, `DownloadReported`; for a second
  upload of one path, `SecondUploadIsReadExactly`; such an upload in `NumberedFileCannotBeRead`).
- Without the version check two different password exchanges share one transcript
  (`UncheckedVersionsCollide`, exact condition in `PakeTranscriptDetermines`).
- What is pressed can be less than what is held, because two names may stand for one key: from an
  empty desktop the two stay equal exactly when no event of the run lifts a key that another held
  name stands for (`PressedIsHeldIffNeverLifted`, a run that lifts in `HeldMayBeUp`).
- The tile encoder's periodic full frame is not repeated when the queue was full or it got lost: a
  wrong tile that does not change is put right exactly by a full frame that gets through, and only
  the number of frames decides which those are (`StillTileRecoversExactly`, the cost of one that was
  dropped in `DroppedFullFrameCosts`, a run in `DroppedFullFrameIsReached`).

## Model

| member | source | states |
|---|---|---|
| `VideoPipeline.EveryViewerCanDecode` | crates/rivetlink-agent/src/console/broker.rs:777-818 | In every run of the whole pipeline, what `next` returned to any viewer starts with a keyframe and every delta directly follows the output it refers to; a viewer known to get video that waits for a keyframe has asked for one |
| `VideoPipeline.WaitingViewersGetAKeyframe` | crates/rivetlink-agent/src/console/broker.rs:636-651 | In every reachable state a viewer held back by the gate has a keyframe on its way or requested, unless its request was merged into an already written one |
| `VideoPipeline.RequestIsAnsweredExactly` | crates/rivetlink-agent/src/console/broker.rs:636-651 | In every run, with a stream or without, a viewer that asks has a keyframe coming afterwards if and only if its request is not merged into one already written or a keyframe would have come anyway |
| `KeyframeDelivery.RequestWakesExactly` | crates/rivetlink-agent/src/console/broker.rs:636-651 | In every run of a video stream, after a turn in which a viewer asks for a keyframe, a keyframe can be delivered to it without any new start, request, encoder failure or spontaneous keyframe if and only if the request was not merged into one already written, or a keyframe was on the path behind it, owed or requested |
| `KeyframeDelivery.ViewerIsWokenExactly` | crates/rivetlink-agent/src/console/broker.rs:777-818 | In every run of a video stream, a waiting viewer that has not lagged can be given a keyframe in that way if and only if one is on the path, owed by the encoder, or requested |
| `KeyframeDelivery.ComplaintWakesExactly` | crates/rivetlink-agent/src/console/broker.rs:823-834 | In every run of a video stream, a waiting viewer that has not lagged and reports that it could not decode can then be given a keyframe if and only if it could before, or its request is not merged into one already written |
| `KeyframeDelivery.StuckViewerGetsNothing` | crates/rivetlink-agent/src/console/broker.rs:777-818 | Where none is, no such continuation delivers any frame to it |
| `VideoPipeline.SwallowedRequestStrandsViewer` | crates/rivetlink-agent/src/console/broker.rs:636-651 | A reachable run in which the request is merged and the other conditions fail: the viewer waits with no keyframe coming |
| `KeyframeDelivery.StrandedViewerIsNotWoken` | crates/rivetlink-agent/src/console/broker.rs:636-651 | A reachable state after which a viewer that asked cannot be woken in that way |
| `VideoPipeline.OfferKeeps` | crates/rivetlink-agent/src/capture/h264.rs:123-165 | The queue has room for a frame encoded after the room check, whatever ran in between, so the recovery branch for a full queue is never taken |
| `VideoPipeline.RecvKeeps` | crates/rivetlink-agent/src/console/broker.rs:777-818 | Receiving, lagging or dropping a frame keeps every viewer's frames decodable and its gate sound |
| `VideoPipeline.StopKeeps` | crates/rivetlink-agent/src/console/worker.rs:415-424 | Stopping a stream with frames still queued keeps everything behind it decodable |
| `VideoPipeline.TransitPipe` | crates/rivetlink-agent/src/console/worker.rs:372-391 | The forwarder and the broker's reader move frames along without loss, copy or reordering |
| `VideoPipeline.NextSkipsOnlyDeltas` | crates/rivetlink-agent/src/console/broker.rs:777-818 | What one `next` skips are deltas that cannot be decoded and lag notices, and nothing else |
| `VideoPipeline.NextReturnsFirstDue` | crates/rivetlink-agent/src/console/broker.rs:777-818 | `next` returns the first frame it may return, and asks for nothing when that is the very first one: only a delta that arrives while it waits for a keyframe is withheld |
| `ViewerFeed.ViewerGetsExactly` | crates/rivetlink-agent/src/console/broker.rs:777-818 | Over every continuation of any state, the reading of a viewer that does not switch is cut exactly where it is told that it lags, to go on each time with the four frames then retained; of its first stretch it is given all video frames, or those from the first keyframe on if it was waiting, and of every later stretch those from the first keyframe on |
| `ViewerFeed.SubscriberGetsExactly` | crates/rivetlink-agent/src/console/broker.rs:576-595 | In every run the same from its subscription on, whether it keeps up or lags: of every stretch it read it was given the video frames from the first keyframe on, and no others |
| `ViewerFeed.SwitcherGetsExactly` | crates/rivetlink-agent/src/console/broker.rs:371-400 | The same from a display switch on, after all it had before |
| `CaptureFlow.GateTurnsExactly` | crates/rivetlink-agent/src/console/broker.rs:780-808 | Over everything a viewer ever received: it asks exactly at a lag once it has seen video and at a first video frame that is a delta, reports congestion exactly if it has lagged, and is given exactly the tile frames, the keyframes and the deltas with a keyframe before them since the last lag |
| `CaptureFlow.NextAsksAll` | crates/rivetlink-agent/src/console/broker.rs:777-818 | `next` makes the requests of all its turns, in order |
| `CaptureFlow.RequestsAreFew` | crates/rivetlink-agent/src/console/broker.rs:636-651 | In every run, however often viewers ask, at most one keyframe request is under way besides one for each subscription, and the way can always be cleared for the next |
| `CaptureFlow.FirstRequestIsWritten` | crates/rivetlink-agent/src/console/broker.rs:578-580 | After a subscription or a switch, whatever happens until then, the first request of anyone is written in its own right and not merged into an older one |
| `CaptureFlow.CallIsSend` | crates/rivetlink-agent/src/capture/h264.rs:113-165 | The capture thread's single accesses of queue and flags, taken in a row, do what one call of `send` does |
| `CaptureFlow.PathCanDrain` | crates/rivetlink-agent/src/console/worker.rs:372-391 | From every state, forwarder, socket and reader can publish all that was queued, in order, whatever the capture does |
| `CaptureFlow.TilesGetThrough` | crates/rivetlink-agent/src/console/worker.rs:372-391 | A tile frame offered to a queue with room is published behind all that was queued; without room it is dropped, and nothing else is |
| `CaptureFlow.StreamCanBeReplaced` | crates/rivetlink-agent/src/console/worker.rs:333-424 | From every state a stream can be stopped and the next one started: video exactly if it is asked for and the size is even and not empty, keyframe first, with what was in the socket kept and what was queued dropped |
| `VideoPipeline.ConsoleDesktopStream.OnReceived` | crates/rivetlink-agent/src/console/broker.rs:780-808 | One turn of the gate updates its four flags and asks for keyframes as the specification says |
| `VideoPipeline.ConsoleDesktopStream.NextFrame` | crates/rivetlink-agent/src/console/broker.rs:777-818 | The loop returns the first deliverable frame of what arrives, with the requests made on the way |
| `H264.SendKeepsReferences` | crates/rivetlink-agent/src/capture/h264.rs:113-165 | One `send` with room never drops a frame it encoded, keeps the codec predicting from a queued frame, keeps the bitrate in bounds, and either queues the data or keeps it for the next tick |
| `H264.SendHonoursRequests` | crates/rivetlink-agent/src/capture/h264.rs:113-201 | A keyframe request is never lost by a tick |
| `H264.RateMovesExactly` | crates/rivetlink-agent/src/capture/h264.rs:182-218 | The bitrate falls exactly on reported congestion outside the hold-off and above the minimum, and rises exactly on a captured frame after a quiet time and below the maximum, if the encoder could be rebuilt |
| `H264.MovesKeepTheirDistance` | crates/rivetlink-agent/src/capture/h264.rs:182-218 | Over any row of ticks with a clock that does not run back, whatever is reported and whichever rebuilds fail: two attempts to move the bitrate are a hold-off apart, and one to raise it comes a long quiet time after every earlier attempt and every reported congestion |
| `H264.ForcedKeyframesKeepTheirDistance` | crates/rivetlink-agent/src/capture/h264.rs:196-201 | However often keyframes are asked for, two forced ones are half a second apart |
| `H264.TickNeverRaises` | crates/rivetlink-agent/src/capture/h264.rs:169-201 | A heartbeat never raises the bitrate |
| `H264.RebuildsExactly` | crates/rivetlink-agent/src/capture/h264.rs:204-218 | The codec is replaced exactly when the bitrate moves, and the fresh one answers a pending keyframe request |
| `H264.KeptDataIsSent` | crates/rivetlink-agent/src/capture/h264.rs:113-177 | Data that found the queue full is kept through any number of ticks that find it full, with the codec left alone, and the first tick with room queues it |
| `H264.TickAnswersExactly` | crates/rivetlink-agent/src/capture/h264.rs:167-177 | A tick ends the capture exactly if it is not fresh and finds the consumer gone, whether a frame is kept or there never was one; a tick that is not due changes nothing |
| `H264.AdaptKeeps` | crates/rivetlink-agent/src/capture/h264.rs:182-218 | Rate changes and forced keyframes keep the bitrate bounds and the codec's reference |
| `H264.H264Encoder.Push` | crates/rivetlink-agent/src/capture/h264.rs:108-165 | The imperative encoder does exactly the specified send to encoder, control flags and queue |
| `H264.H264Encoder.Tick` | crates/rivetlink-agent/src/capture/h264.rs:169-177 | The heartbeat resends kept data and otherwise only reports whether the consumer is there |
| `H264.H264Encoder.Adapt` | crates/rivetlink-agent/src/capture/h264.rs:182-201 | Adaptation as specified, in place |
| `H264.H264Encoder.ChangeBitrate` | crates/rivetlink-agent/src/capture/h264.rs:204-218 | A rebuild replaces the codec only when it succeeds |
| `TileDelta.ViewerAgrees` | crates/rivetlink-agent/src/capture/screencast.rs:148-264 | In every run of pushes and heartbeats, with any full queues, size changes and failing tiles, a viewer that paints each queued delta shows the last queued frame outside the tiles that failed |
| `TileDelta.ViewerShowsLastPush` | crates/rivetlink-agent/src/capture/screencast.rs:148-231 | With no failing tile, after any push that was not dropped the viewer holds exactly the pushed frame, whatever was dropped before |
| `TileDelta.NothingStale` | crates/rivetlink-agent/src/capture/screencast.rs:148-231 | Without failing tiles nothing is ever stale |
| `TileDelta.CaptureAnswersExactly` | crates/rivetlink-agent/src/capture/screencast.rs:148-264 | In every run, a delta is queued exactly when there is something to send and room, and the capture is told to stop exactly when there is something to send and the viewer is gone; something to send is a changed tile that could be encoded, a full frame or a due heartbeat |
| `TileDelta.HeartbeatsKeepTheirDistance` | crates/rivetlink-agent/src/capture/screencast.rs:201-264 | In every run a delta that carries nothing is queued only after a heartbeat of silence, and an idle capture with room that has sent before queues one exactly then |
| `TileDelta.LossyViewerAgrees` | crates/rivetlink-agent/src/capture/screencast.rs:148-264 | In every run and for every pattern of deltas lost on the way, a viewer shows the last queued frame outside the tiles it missed and that were not sent since |
| `TileDelta.KeyframeHeals` | crates/rivetlink-agent/src/capture/screencast.rs:30-36 | Whatever a viewer shows and whatever it missed, a full frame that arrives makes its canvas that frame |
| `TileRecovery.FullFramesAreCounted` | crates/rivetlink-agent/src/capture/screencast.rs:160-165 | At one size the number of well-formed frames alone decides which is sent in full, whatever became of earlier ones |
| `TileRecovery.StillTileRecoversExactly` | crates/rivetlink-agent/src/capture/screencast.rs:30-36 | Over every continuation in which a tile does not change, with any losses, failures and heartbeats, the viewer shows its byte right or wrong as before, unless a frame that is sent in full gets through with that tile, and then right |
| `TileRecovery.DroppedFullFrameCosts` | crates/rivetlink-agent/src/capture/screencast.rs:213-230 | After a full frame that did not bring the tile, what the viewer shows there stays for all of the next 159 frames |
| `TileRecovery.DroppedFullFrameIsReached` | crates/rivetlink-agent/src/capture/screencast.rs:213-230 | For every frame, a run in which no tile of it could be encoded at first, the queue is full at the 160th count, and a delta is sent after that: the viewer is still black |
| `TileDelta.PushAgrees` | crates/rivetlink-agent/src/capture/screencast.rs:148-231 | One queued push brings the viewer to the new frame outside tiles that failed now or failed before and did not change since |
| `TileDelta.PatchesOf` | crates/rivetlink-agent/src/capture/screencast.rs:167-197 | The patches of a push are exactly the changed tiles that could be encoded, each with its own pixels |
| `TileDelta.PaintAllAt` | crates/rivetlink-agent/src/capture/screencast.rs:167-197 | Painting patches by the row-major index the encoder gives them sets each byte of a patched tile to the frame's byte and leaves the rest |
| `TileDelta.PixelsAt` | crates/rivetlink-agent/src/capture/screencast.rs:167-293 | Every byte of a frame lies in exactly one tile, at one offset, inside bounds |
| `TileDelta.SameTileSameByte` | crates/rivetlink-agent/src/capture/screencast.rs:268-274 | A tile that does not differ has equal bytes everywhere |
| `TileDelta.RectFits` | crates/rivetlink-agent/src/capture/screencast.rs:167-197 | Every tile of the grid is non-empty and inside the frame |
| `TileDelta.RowMajor` | crates/rivetlink-agent/src/capture/screencast.rs:167-197 | The running tile index and its row and column determine each other |
| `TileDelta.EncodeTile` | crates/rivetlink-agent/src/capture/screencast.rs:277-293 | The row loop collects exactly the tile's pixels, all slices in bounds |
| `TileDelta.Diff` | crates/rivetlink-agent/src/capture/screencast.rs:167-197 | The nested tile loops produce the specified patches in row-major order |
| `TileDelta.TileEncoder.PushFrame` | crates/rivetlink-agent/src/capture/screencast.rs:148-231 | The cache, counter and timestamp change as specified, and only a queued delta moves the cache |
| `TileDelta.TileEncoder.Beat` | crates/rivetlink-agent/src/capture/screencast.rs:242-264 | The heartbeat never changes what the viewer shows |
| `Sealed.AcceptsOnlyAPrefix` | crates/rivetlink-crypto/src/sealed.rs:60-171 | Under a network that drops, reorders, replays, reflects and injects, what any endpoint accepted is a prefix of what the endpoint mirroring it sealed, in sequence order |
| `Sealed.NoncesAreUnique` | crates/rivetlink-crypto/src/sealed.rs:92-127 | However threads interleave on the weak compare-and-swap, no key is used twice with one nonce and the last sequence number is never used |
| `Sealed.NextSealingOpens` | crates/rivetlink-crypto/src/sealed.rs:133-171 | The peer's record with the expected number opens, whatever was injected before |
| `SealedDelivery.ChannelCanDrain` | crates/rivetlink-crypto/src/sealed.rs:60-171 | From every reachable state, whatever the network did, threads and network can go on so that an endpoint has accepted all its peer ever claimed a number for |
| `SealedDelivery.ClaimIsMadeExactly` | crates/rivetlink-crypto/src/sealed.rs:92-112 | With anything done by other threads between its load and its exchange, a thread claims the number it loaded exactly when that is not the last one, the exchange did not fail spuriously and no other thread claimed; it gives up only at the last number |
| `Sealed.CompareExchangeKeeps` | crates/rivetlink-crypto/src/sealed.rs:92-112 | Claimed numbers are exactly 0 up to the counter, each held by one thread at most |
| `Sealed.OpenChangesOnlyOnSuccess` | crates/rivetlink-crypto/src/sealed.rs:133-171 | A refused packet changes nothing, an accepted one only the receive counter |
| `Sealed.InOrderPacketOpens` | crates/rivetlink-crypto/src/sealed.rs:133-171 | A record sealed by the other end with the expected number is accepted with its plaintext |
| `Sealed.OpensExactly` | crates/rivetlink-crypto/src/sealed.rs:133-171 | For all bytes, a packet is opened as a plaintext if and only if it is the record with the expected number, not the last one, that was sealed with that plaintext under this key and binding |
| `Sealed.NonceInjective` | crates/rivetlink-crypto/src/sealed.rs:181-185 | Different sequence numbers give different 12-byte nonces |
| `Sealed.SealedChannel.Claim` | crates/rivetlink-crypto/src/sealed.rs:92-112 | The loop claims the current number, or nothing at the last one, after any number of spurious failures |
| `Sealed.SealedChannel.Seal` | crates/rivetlink-crypto/src/sealed.rs:92-127 | Header and record carry the claimed number |
| `Sealed.SealedChannel.OpenPacket` | crates/rivetlink-crypto/src/sealed.rs:133-171 | Opening in place as specified |
| `Transcripts.TaggedInjective` | crates/rivetlink-sdk/src/direct.rs:195-295 | A built string determines kind, version and fields; the four kinds never collide |
| `Transcripts.PakeTranscriptInjective` | crates/rivetlink-sdk/src/direct.rs:220-237 | For inputs that pass the version check the password transcript determines everything in it |
| `Transcripts.KexTranscriptInjective` | crates/rivetlink-sdk/src/direct.rs:281-295 | The same for the key-mode transcript and both sides' fields |
| `Transcripts.ClientKexBindingInjective` | crates/rivetlink-sdk/src/direct.rs:239-253 | The client's binding determines version, identity and ML-KEM key |
| `Transcripts.HostKexBindingInjective` | crates/rivetlink-sdk/src/direct.rs:255-279 | The host's binding determines version, identity, hello hash and ciphertext |
| `Transcripts.ClientFieldsInjective` | crates/rivetlink-sdk/src/direct.rs:200-218 | The hashed client fields determine the hello |
| `Transcripts.SignatureMessageInjective` | crates/rivetlink-crypto/src/handshake.rs:123-130 | The signed message determines binding and ephemeral key |
| `Transcripts.PakeTranscriptDetermines` | crates/rivetlink-sdk/src/direct.rs:126-133 | Without the version check, transcripts agree exactly when version and the list of present fields agree |
| `Transcripts.UncheckedVersionsCollide` | crates/rivetlink-sdk/src/direct.rs:126-133 | So a lone ML-KEM value could be read as either side's |
| `Direct.ConnectedClientAgrees` | crates/rivetlink-sdk/src/direct.rs:465-568 | If the client connects, the holder of the pinned key signed an answer to exactly this hello, in this version, with the ephemeral key and ciphertext the client used, or the hello hash collided |
| `Direct.AnswerIsForThisHello` | crates/rivetlink-sdk/src/direct.rs:503-533 | The same as soon as the client derives a channel; the answer's version is the one asked for |
| `Direct.AnswersAreUnambiguous` | crates/rivetlink-sdk/src/direct.rs:255-279 | No client hello, relay key exchange or device authentication signed by the key can be read as a host's answer |
| `Direct.ConnectedClientIsBound` | crates/rivetlink-sdk/src/direct.rs:465-568 | A hybrid client ends hybrid and a classical one classical, the channel is bound to the whole exchange and has confirmed its key |
| `Direct.HellosAreUnambiguous` | crates/rivetlink-sdk/src/direct.rs:239-253 | No host answer, relay key exchange or device authentication signed by the key can be read as a client's hello, and a hello only as itself |
| `Direct.HostTakesOnlySignedHellos` | crates/rivetlink-sdk/src/direct.rs:636-690 | A host derives a channel if and only if it trusts the identity, that identity signed exactly this version, ephemeral and ML-KEM key, and the ML-KEM key has its size |
| `Direct.IoErrorMeansNoAnswer` | crates/rivetlink-sdk/src/direct.rs:99-104 | The client reports an I/O error exactly when the stream broke before the answer was read |
| `Direct.SidesFinishExactly` | crates/rivetlink-sdk/src/direct.rs:302-322 | In both modes a side is done if and only if it has a channel, all its writes went out and what it read is the base64 text of the next record sealed under the other direction's key for this exchange, with the confirmation token in it; a host reports exactly its failed reads and writes as I/O errors |
| `Agreement.SharedKeyMeansAgreement` | crates/rivetlink-sdk/src/direct.rs:329-722 | A key that one run opens with and another seals with belongs to a client and a host that agree on password, version and everything exchanged; never to one role twice or to both modes |
| `Agreement.MirrorsIffAgree` | crates/rivetlink-sdk/src/direct.rs:329-722 | A client and a host derive mirrored channels exactly when they agree |
| `Agreement.ConfirmationMeansAgreement` | crates/rivetlink-sdk/src/direct.rs:302-322 | In all four roles, a confirmation token that opens was sealed by a run of the other role that agrees |
| `Agreement.PasswordClientAgrees` | crates/rivetlink-sdk/src/direct.rs:329-390 | A password client connects only to a host with the same password that saw the same messages |
| `Agreement.PasswordHostAgrees` | crates/rivetlink-sdk/src/direct.rs:406-454 | The same for the host |
| `Agreement.KeyHostAgrees` | crates/rivetlink-sdk/src/direct.rs:636-722 | A host accepts only a trusted client whose own run saw this host's answer, so a replayed hello is not accepted |
| `Agreement.KeyHostKnowsItsClient` | crates/rivetlink-sdk/src/direct.rs:636-722 | The identity key of an accepted client signed this hello, and a run of that client saw this host's answer to it |
| `Agreement.AgreeingSessionsConfirm` | crates/rivetlink-sdk/src/direct.rs:302-322 | Two runs that agree both confirm |
| `Agreement.UndisturbedKeyExchangeConnects` | crates/rivetlink-sdk/src/direct.rs:465-722 | On an undisturbed stream both sides of key mode connect over mirrored channels, hybrid or classical |
| `Agreement.UndisturbedPasswordExchangeConnects` | crates/rivetlink-sdk/src/direct.rs:329-454 | On an undisturbed stream both sides of password mode with the same password connect over mirrored channels, hybrid or classical |
| `Agreement.PasswordRunsDerive` | crates/rivetlink-sdk/src/direct.rs:329-454 | And both sides derive a channel there |
| `Agreement.KemAgrees` | crates/rivetlink-sdk/src/direct.rs:163-193 | Decapsulating what the host encapsulated gives the same secret, through both encodings |
| `PinStore.FileFollowsMemory` | crates/rivetlink-sdk/src/pq_pins.rs:52-122 | Under any interleaving of loads, remembers and save tasks the file holds no host that memory lacks, never loses one, and holds all once a host was added, nothing is pending and no save failed |
| `PinStore.NextProcessRemembers` | crates/rivetlink-sdk/src/pq_pins.rs:52-122 | A host saved by one process is refused a downgrade by the next that loads the file |
| `PinStore.RememberedIsRefused` | crates/rivetlink-sdk/src/pq_pins.rs:97-108 | In every run a host is refused a downgrade from the moment it is remembered to the end of the process, and a save is on its way exactly if it was new and a store is in use |
| `PinStore.LoadedIsRefused` | crates/rivetlink-sdk/src/pq_pins.rs:52-66 | A readable store refuses every host in it from its use to the end of the process, an unreadable one every host |
| `PinStore.StoreIsUsedExactly` | crates/rivetlink-sdk/src/pq_pins.rs:52-81 | With anything between its read and its lock, a `use_store` makes the process refuse everything exactly if the file could not be read, and otherwise adds exactly the hosts the file held and puts the store in use |
| `PinStore.RefusedExactly` | crates/rivetlink-sdk/src/pq_pins.rs:25-66 | A step makes a host refused exactly if it remembers it, or ends a `use_store` that read it or could not read |
| `PinStore.SaveCanFinish` | crates/rivetlink-sdk/src/pq_pins.rs:102-122 | From every reachable state with a save waiting, the save tasks alone can bring the file level with memory |
| `PinStore.LoadOfPrint` | crates/rivetlink-sdk/src/pq_pins.rs:68-93 | Loading undoes saving for well-formed hosts, in any order |
| `PinStore.LoadOfLines` | crates/rivetlink-sdk/src/pq_pins.rs:68-81 | A damaged line never changes what the other lines load as |
| `PinStore.LoadIsGood` | crates/rivetlink-sdk/src/pq_pins.rs:68-81 | Whatever the file holds, only well-formed hosts are loaded |
| `PinStore.SaveWriteKeeps` | crates/rivetlink-sdk/src/pq_pins.rs:102-122 | A save writes a set between the file's and memory's |
| `PinStore.WriteLines` | crates/rivetlink-sdk/src/pq_pins.rs:84-93 | The write loop produces one line per host |
| `PinStore.Process.Use` | crates/rivetlink-sdk/src/pq_pins.rs:52-66 | A readable store extends the set, an unreadable one refuses every downgrade from then on |
| `PinStore.Process.RememberHost` | crates/rivetlink-sdk/src/pq_pins.rs:102-108 | A save is spawned only for a new host with a store in use |
| `PinStore.Process.RefusesDowngrade` | crates/rivetlink-sdk/src/pq_pins.rs:25-33 | Asks exactly what `RefusedExactly`, `RememberedIsRefused` and `LoadedIsRefused` are about |
| `PinStore.Process.SaveTask` | crates/rivetlink-sdk/src/pq_pins.rs:109-121 | A save task that succeeds leaves exactly memory's hosts in the file |
| `Downgrade.NoDowngrade` | crates/rivetlink-sdk/src/lan.rs:719-780 | In any process run, once a host is remembered, or the store was unreadable, or some call completed a hybrid handshake with it, no call that starts later returns a classical channel to it |
| `Downgrade.ClassicalOnlyAfterClose` | crates/rivetlink-sdk/src/lan.rs:789-799 | A classical channel comes only from `connect_key`, on a host not guarded when the call began, after a stream that broke before the host answered |
| `Downgrade.ProvedIsRemembered` | crates/rivetlink-sdk/src/lan.rs:728-732 | A call that returned a hybrid channel has recorded its host |
| `Downgrade.HybridIsReturned` | crates/rivetlink-sdk/src/lan.rs:728-733 | A hybrid handshake that succeeds is what its call returns, with its host remembered, whatever other calls do in between |
| `Downgrade.FailureIsSeen` | crates/rivetlink-sdk/src/lan.rs:734-750 | One that fails ends its call with that error, except a `connect_key` whose stream broke before the host answered, which asks the pins |
| `Downgrade.FailedConnectIsReturned` | crates/rivetlink-sdk/src/lan.rs:726-746 | A connect that fails ends its call with that error and is never taken for an old host's close |
| `Downgrade.RetryIsMade` | crates/rivetlink-sdk/src/lan.rs:734-746 | Such a call is retried classically and returns what comes of it exactly if its host is not guarded when the pins are asked |
| `Downgrade.CloseIsSeenExactly` | crates/rivetlink-sdk/src/lan.rs:789-799 | The hybrid handshake looks closed by an old host exactly when the stream broke before the host's answer was read |
| `Downgrade.AskPinsKeeps` | crates/rivetlink-sdk/src/lan.rs:734-742 | A guarded host is refused the classical retry |
| `Desktop.SwitchShowsOnlyTheNewCapture` | crates/rivetlink-agent/src/console/broker.rs:371-400 | In every run, a viewer that owns the desktop and is not switching again gets, after a switch, only frames of the capture that the switch started |
| `Desktop.SwitchAlwaysRestarts` | crates/rivetlink-agent/src/console/worker.rs:333-424 | The worker never refuses the restart of a switch whose stop was answered, and the claim is unchanged |
| `Desktop.StopAnsweredWindow` | crates/rivetlink-agent/src/console/worker.rs:415-424 | When a stop's answer has arrived, no frame of any stream is in transit and none will follow |
| `Desktop.TakeoverProtocol` | crates/rivetlink-agent/src/console/broker.rs:324-400 | In every reachable state any step moves the owner counter by one at most, only for a claim under the lock, for a view-only claim only while no stream is active; the flag rises only under the lock; a switch never waits for it; a start never finds the stream active |
| `Desktop.LaterClaimsTakeOver` | crates/rivetlink-agent/src/console/broker.rs:279-288 | Claims get increasing numbers and every older claim stays taken over for good |
| `Grants.ClaimTakesOverExactly` | crates/rivetlink-agent/src/console/broker.rs:324-344 | In every run, a claim that has the lock moves the owner by exactly one with its next two steps, whatever others do between them, if it takes over or no stream is active, and is otherwise refused |
| `Grants.HolderCanBeGrantedExactly` | crates/rivetlink-agent/src/console/broker.rs:324-400 | In every run, a claim or switch that holds the claim lock, wherever it has got to, can still end with a stream of its own if and only if the worker's refusal of it is not already on its way |
| `Grants.SwitchGoesOnExactly` | crates/rivetlink-agent/src/console/broker.rs:371-389 | A switch goes on exactly when no one has the claim lock and its viewer still owns the desktop |
| `CallOutcomes.WaitIsDecidedExactly` | crates/rivetlink-agent/src/console/broker.rs:345-359 | In every run, a claim that has taken over waits, keeping the desktop, while it finds the previous stream active with time left; the first look that finds it gone lets it go on, and the first after the time is up ends it |
| `CallOutcomes.SwapNeverRefuses` | crates/rivetlink-agent/src/console/broker.rs:568-575 | In every run the second check of the flag, in the start, finds it down |
| `CallOutcomes.StartIsAnsweredExactly` | crates/rivetlink-agent/src/console/broker.rs:581-613 | In every run an answered start ends its call and frees both locks: with a view of the stream started for this very claim, from where it subscribed, or refused and with the flag lowered |
| `CallOutcomes.JoinEmptiesWorker` | crates/rivetlink-agent/src/console/worker.rs:415-424 | In every run a stop that had a stream to end leaves the worker without one, its flag down and its answer last on the wire |
| `CallOutcomes.StopIsAnsweredExactly` | crates/rivetlink-agent/src/console/broker.rs:658-669 | In every run a stop that was answered has been carried out: the worker holds and runs no stream; a stop then ends with success and a switch goes on to its restart, the request lock is free and nothing else changed |
| `CallOutcomes.OtherIsAnsweredExactly` | crates/rivetlink-agent/src/console/broker.rs:673-687 | In every run any other request ends once its own answer is there, frees the request lock and changes nothing else |
| `CallOutcomes.SocketDrains` | crates/rivetlink-agent/src/console/broker.rs:467-499 | Reading the socket to its end shows every frame and notice on it in order, hands over every answer, and lowers the flag exactly if a notice was among them |
| `CallOutcomes.RunningStreamShows` | crates/rivetlink-agent/src/console/worker.rs:372-391 | A frame of a running stream can be shown after all that is on its way; of any other stream none gets on its way |
| `Desktop.RepliesFitRequests` | crates/rivetlink-agent/src/console/broker.rs:740-755 | In every run at most one call waits for the worker, and the one answer it can find is of the kind it asked for; a started stream is the last one and was started for its claim |
| `Desktop.OneStreamRuns` | crates/rivetlink-agent/src/console/worker.rs:333-424 | In every run at most one stream task runs, the last one started, and the worker's flag is up |
| `Desktop.FlagRises` | crates/rivetlink-agent/src/console/broker.rs:568-575 | Only a start raises the stream flag |
| `EndNotices.OlderNoticeLandsExactly` | crates/rivetlink-agent/src/console/worker.rs:372-410 | In every run, the notice of a stream started earlier can reach the viewer of a start that is about to subscribe if and only if that stream still has a task or an unread notice |
| `EndNotices.SwitchNoticeLandsExactly` | crates/rivetlink-agent/src/console/worker.rs:415-424 | At the restart of a switch: if and only if that stream's task has ended its capture and not reported, or its notice is unread |
| `EndNotices.SilentStreamStaysSilent` | crates/rivetlink-agent/src/console/worker.rs:372-379 | A stream without a task and without an unread notice, such as one whose stop was answered, never reports again |
| `EndNotices.OldNoticeEndsTheNewStream` | crates/rivetlink-agent/src/console/broker.rs:481-484 | A reachable state in which the notice of stream 0 has lowered the flag and ended the subscription of stream 1, which still runs |
| `Refusals.StartCanBeRefusedExactly` | crates/rivetlink-agent/src/console/broker.rs:658-661 | In every run, with a fair request lock, the start of a call that is about to subscribe can be refused if and only if a stream task runs and no stop holds the lock or waits for it |
| `Refusals.StartIsRefusedExactly` | crates/rivetlink-agent/src/console/worker.rs:333-345 | In every run the worker refuses a start it takes if and only if a stream task runs |
| `Refusals.RefusedClaimHasTakenOver` | crates/rivetlink-agent/src/console/broker.rs:576-600 | In every run a refused start belongs to a claim, which fails with the desktop already its own, no stream and the flag down |
| `Refusals.OvertakingClaimIsRefused` | crates/rivetlink-agent/src/console/broker.rs:658-661 | A reachable state in which a claim was refused after it had moved the owner |
| `Tunnels.SplitOfFrame` | crates/rivetlink-agent/src/relay/client.rs:504-510 | Splitting undoes framing, and an empty payload is no frame |
| `Tunnels.StripOfFrame` | crates/rivetlink-sdk/src/relay_tunnel.rs:293-297 | A client takes the payload of its own session's frames and of no other |
| `Tunnels.Upstream` | crates/rivetlink-sdk/src/relay_tunnel.rs:264-282 | Each read becomes one frame and the end is announced |
| `Tunnels.UpstreamReachesItsSession` | crates/rivetlink-sdk/src/relay_tunnel.rs:264-323 | Reading such frames back gives exactly the bytes read, and no other session gets any |
| `Tunnels.Downstream` | crates/rivetlink-sdk/src/relay_tunnel.rs:285-323 | The loop writes the session's bytes up to its close |
| `TunnelHost.LocalStreamIsAPrefix` | crates/rivetlink-agent/src/relay/client.rs:343-477 | In every run of frames, closes, stuck tunnels and task ends, what a session's stream on the host got is a prefix of what its own client wrote |
| `TunnelHost.ReceivedStreamIsAPrefix` | crates/rivetlink-sdk/src/relay_tunnel.rs:285-323 | The same from host to client, although all sessions share the link |
| `TunnelHost.OpenTunnelLosesNothing` | crates/rivetlink-agent/src/relay/client.rs:514-545 | An open tunnel with nothing in transit has delivered all that was sent |
| `TunnelDelivery.SessionLeavesExactly` | crates/rivetlink-agent/src/relay/client.rs:381-468 | In every run, an event stops the host from serving a session if and only if its client closed it, its task ended, or a frame of its own found its pump ended or its queue full for the whole wait |
| `TunnelDelivery.FrameIsHandledExactly` | crates/rivetlink-agent/src/relay/client.rs:381-391 | A frame of a served session is queued while there is room, waits while the queue is full, and cuts that session off, and no other, exactly when it is stuck |
| `TunnelDelivery.UnbrokenTunnelHasAll` | crates/rivetlink-agent/src/relay/client.rs:343-477 | In every run, a session that nothing broke since it was open, with nothing in transit, has received all its client sent |
| `TunnelDelivery.OpenTunnelCanDeliver` | crates/rivetlink-agent/src/relay/client.rs:343-477 | From every reachable state, whatever is in transit for whomever, an open session can be given everything its client ever wrote |
| `TunnelDelivery.OpenTunnelCanDrain` | crates/rivetlink-agent/src/relay/client.rs:514-545 | From every reachable state, closed by its client or not, a session whose pump runs can have written to its stream all that was queued and, while it is served, all that is on the link before its close; without a close that is everything its client has sent |
| `TunnelDelivery.ClosedTunnelCanDeliver` | crates/rivetlink-agent/src/relay/client.rs:437-443 | A client that has sent all it wrote and then closes can still have all of it delivered |
| `TunnelDelivery.ReaderHasAll` | crates/rivetlink-sdk/src/relay_tunnel.rs:285-323 | In every run, a client that read the link to its end or to its session's close has received all that the session's pump sent |
| `TunnelDelivery.RunningPumpCanDeliver` | crates/rivetlink-agent/src/relay/client.rs:514-545 | From every reachable state, all that a running session wrote can be read by its client |
| `TunnelDelivery.ReaderCanCatchUp` | crates/rivetlink-sdk/src/relay_tunnel.rs:285-323 | From every reachable state a client can read that far |
| `TunnelSessions.ClientIsToldExactly` | crates/rivetlink-agent/src/relay/client.rs:514-553 | In every run, the host has announced a session's end exactly when the session was served and its pump has ended, and then once; a client that read everything stopped exactly if it was told |
| `TunnelSessions.NewSessionOpens` | crates/rivetlink-agent/src/relay/client.rs:394-417 | In every run, a session not asked for before is served as soon as a place is free |
| `TunnelSessions.NewSessionCarries` | crates/rivetlink-agent/src/relay/client.rs:343-477 | And from there each end can have all that the other wrote |
| `TunnelHost.TasksAreBounded` | crates/rivetlink-agent/src/relay/client.rs:399-445 | Running tasks never exceed the limit and no session gets two direct paths |
| `TunnelDelivery.RequestIsServedExactly` | crates/rivetlink-agent/src/relay/client.rs:394-417 | In every run, a request that is read opens a tunnel exactly while tasks are below the limit |
| `TunnelDelivery.OfferIsTakenExactly` | crates/rivetlink-agent/src/relay/client.rs:421-436 | In every run, an offer begins a direct path exactly for a served session that has none, while tasks are below the limit |
| `TunnelSessions.PlacesAreFreedExactly` | crates/rivetlink-agent/src/relay/client.rs:461-468 | A place is freed exactly by the end of a tunnel whose pump has ended or of a direct path, and an ended tunnel leaves nothing in the loop |
| `TunnelSessions.CloseIsRead` | crates/rivetlink-agent/src/relay/client.rs:437-443 | A session whose client closed it is served no longer once the host has read that far |
| `TunnelHost.ReadFrameFlow` | crates/rivetlink-agent/src/relay/client.rs:381-391 | A frame is the next part of its own session's bytes or cuts that session off |
| `TunnelHost.HostLoop.OnRequest` | crates/rivetlink-agent/src/relay/client.rs:394-417 | A tunnel is accepted exactly while tasks are below the limit |
| `TunnelHost.HostLoop.OnOffer` | crates/rivetlink-agent/src/relay/client.rs:421-436 | A direct path is begun for a live tunnel, once, within the limit |
| `TunnelHost.HostLoop.OnTunnelEnded` | crates/rivetlink-agent/src/relay/client.rs:461-468 | An ended tunnel is forgotten |
| `Share.AcceptedPaths` | crates/rivetlink-sdk/src/share.rs:38-57 | Accepted paths are exactly the printed forms of short lists of valid names |
| `Share.JoinOfSplit` | crates/rivetlink-sdk/src/share.rs:42-42 | Splitting a path loses nothing |
| `Share.SplitOfJoin` | crates/rivetlink-sdk/src/share.rs:42-42 | Any list of names comes back from its printed form |
| `Share.CandidateIsNoPart` | crates/rivetlink-agent/src/console/shared_folder.rs:263-278 | No candidate for a final name looks like a part file |
| `Share.NumberedFits` | crates/rivetlink-agent/src/console/shared_folder.rs:119-137 | A name whose part file could be made can be given any number without exceeding the 255 bytes of a file name |
| `SharedFolder.UploadsConserve` | crates/rivetlink-agent/src/console/shared_folder.rs:108-180 | In every run of interleaved uploads nothing that existed changes, every finished file holds exactly its upload's bytes with the declared length at a path of its own, and part files are exactly those of open uploads and the ones left over |
| `UploadRun.UploadCompletes` | crates/rivetlink-agent/src/console/shared_folder.rs:108-174 | In every run, an upload that could start and was given its data in any chunks, with any other uploads between them, finishes as a file with exactly that data, in the folder and under the first free candidate of the name asked for, if one is free |
| `UploadRun.AbortsExactly` | crates/rivetlink-agent/src/console/shared_folder.rs:176-180 | In every run, ending an upload removes its part file and nothing else, in the tree and among the uploads |
| `UploadRun.WritesExactly` | crates/rivetlink-agent/src/console/shared_folder.rs:139-152 | In every run a chunk is taken exactly when its upload is open, it is no longer than a chunk may be and fits what was declared; it is then the end of the part file, and otherwise the upload is over |
| `UploadRun.StartsExactly` | crates/rivetlink-agent/src/console/shared_folder.rs:108-137 | An upload starts exactly when its path is accepted and no part name, the size within the limit, the id unused, an upload free, nothing but folders in the way, and the part file new and its name short enough |
| `UploadRun.StartLeavesExactly` | crates/rivetlink-agent/src/console/shared_folder.rs:92-137 | Whether it starts or not, an accepted start leaves exactly what there was, the folders on the way up to the first obstacle, and the part file if it started |
| `UploadRun.ResolveMakesExactly` | crates/rivetlink-agent/src/console/shared_folder.rs:92-106 | Resolving makes exactly the folders on the way, up to the first thing that is none |
| `SharedFolder.LeftBehindExactly` | crates/rivetlink-agent/src/console/shared_folder.rs:155-163 | A part file is left behind exactly when a complete upload finds all candidate names taken |
| `SharedFolder.CrowdedFolderKeepsThePart` | crates/rivetlink-agent/src/console/shared_folder.rs:155-163 | For every plain name, the folder that holds all its candidates makes a complete upload fail and keep its part file |
| `SharedFolder.FinishReports` | crates/rivetlink-agent/src/console/shared_folder.rs:155-174 | A finish succeeds exactly for a complete upload with a free name, and the reported path was unused and holds the upload |
| `SharedFolder.ResolveStaysInside` | crates/rivetlink-agent/src/console/shared_folder.rs:92-106 | Resolving adds folders only, changes nothing, and passes through real folders only |
| `SharedFolder.ResolveDirs` | crates/rivetlink-agent/src/console/shared_folder.rs:92-106 | The loop resolves component by component as specified |
| `SharedFolder.UnusedName` | crates/rivetlink-agent/src/console/shared_folder.rs:263-278 | The first candidate that does not exist is found, and none only if all exist |
| `SharedFolder.ReadChunkReads` | crates/rivetlink-agent/src/console/shared_folder.rs:232-250 | Reading succeeds exactly inside a readable file and gives that part of it |
| `SharedFolder.UploadFolder.StartUpload` | crates/rivetlink-agent/src/console/shared_folder.rs:108-137 | Checks in order, folders made, a fresh part file opened; a part file that exists or whose name is too long for the file system is an I/O error |
| `SharedFolder.UploadFolder.WriteChunk` | crates/rivetlink-agent/src/console/shared_folder.rs:139-152 | A chunk is appended, or the upload aborted when it is too long |
| `SharedFolder.UploadFolder.FinishUpload` | crates/rivetlink-agent/src/console/shared_folder.rs:155-174 | The part file is renamed to an unused name, removed, or left |
| `SharedFolder.UploadFolder.AbortUpload` | crates/rivetlink-agent/src/console/shared_folder.rs:176-180 | The part file goes with the upload |
| `SharedFolder.UploadFolder.Drop` | crates/rivetlink-agent/src/console/shared_folder.rs:253-260 | Dropping the folder leaves no part file of an open upload |
| `Transfer.Download` | crates/rivetlink-agent/src/lan.rs:975-1004 | With any uploads going on between its reads, the loop ends and sends the pieces of the file as it was at the first read, or one error for what may not be read |
| `Transfer.ReadableStays` | crates/rivetlink-agent/src/console/shared_folder.rs:108-180 | A path that can be downloaded, whether its file was there before or was uploaded, reads the same after any further events |
| `Transfer.DownloadIsTheFile` | crates/rivetlink-agent/src/lan.rs:975-1004 | The chunks put together are the file, and exactly the last one carries the end mark |
| `Transfer.UploadedFileDownloads` | crates/rivetlink-agent/src/console/shared_folder.rs:155-250 | At any later time the reported path of a finished upload reads as the bytes sent if it is within 1024 bytes, and as nothing otherwise |
| `Transfer.DownloadReported` | crates/rivetlink-agent/src/lan.rs:975-1004 | A download of that path, with any uploads beside it, sends the file and its end mark, or one error and nothing else |
| `Transfer.SecondUploadIsReadExactly` | crates/rivetlink-agent/src/console/shared_folder.rs:263-278 | Any accepted path whose file exists, uploaded again: the new file reads under its reported path if and only if four more bytes fit |
| `Transfer.NumberedFileCannotBeRead` | crates/rivetlink-agent/src/console/shared_folder.rs:155-174 | A path of 1024 bytes whose part file can be made, uploaded again: the second file is reported under a path that cannot be read |
| `Transfer.LengthWithoutDecoding` | crates/rivetlink-agent/src/lan.rs:1010-1014 | The length computed from the text is the length of the data |
| `Base64.DecodedLenIsExact` | crates/rivetlink-agent/src/lan.rs:1010-1014 | The length shortcut is exact for every text the decoder accepts |
| `Base64.RoundTrip` | crates/rivetlink-sdk/src/direct.rs:106-109 | Decoding undoes encoding |
| `Base64.EncodeOfDecode` | crates/rivetlink-sdk/src/direct.rs:106-109 | Decoding is strict: no two texts stand for the same bytes |
| `Base64.DecodeNOfEncode` | crates/rivetlink-sdk/src/direct.rs:118-123 | Trimming and the length check pass an encoded value through |
| `HostSession.InputComesFromControllers` | crates/rivetlink-agent/src/session/host.rs:448-488 | Over every packet sequence an event reaches the sink only as the plaintext of a record sealed under the session's key with the recorded number, under the console policy, well formed, from a client that the trust store lets control, over a channel keyed by an ephemeral key verified against that client |
| `SessionLife.InputComesFromOpenSessions` | crates/rivetlink-agent/src/session/host.rs:448-488 | Over every packet sequence, each injected event came in a packet for a control session open just then: its request was accepted at `i` from that client, the client signed the key exchange at `x`, and between `i` and the packet no session was closed, no screenshot refused and no other request accepted; and everything `InputComesFromControllers` says |
| `HostSession.RecordIsComplete` | crates/rivetlink-agent/src/session/host.rs:448-488 | Over every packet sequence the recorded injections are exactly the events the input handler gave to the sink, in order |
| `HostSession.InjectedKeyWasSigned` | crates/rivetlink-agent/src/session/host.rs:317-386 | That key was signed by the client itself, as the client of that very session |
| `HostSession.InputIsNeverReplayed` | crates/rivetlink-agent/src/session/host.rs:448-488 | No sealed record is opened into two injections, in one session or across sessions, and the injections of one key follow its numbering |
| `HostSession.RejectedRequestChangesNothing` | crates/rivetlink-agent/src/session/host.rs:233-286 | A refused session request leaves the active session untouched |
| `HostSession.ControlIsGrantedExactly` | crates/rivetlink-agent/src/session/host.rs:233-286 | Control is granted if and only if the request is well formed, names a valid curve point, comes under the console policy and from a key with all three permissions |
| `Admission.ViewIsGrantedExactly` | crates/rivetlink-agent/src/session/host.rs:184-286 | A request to view is accepted if and only if it has a session id, the right version and a valid identity, and its key is known with the permissions of the policy, or unknown and approved by an operator at a prompt; only then is the key added, for viewing alone |
| `Admission.ActiveClientWasAdmitted` | crates/rivetlink-agent/src/session/host.rs:184-313 | Over every packet sequence, the client of an active session was such a client, for the capability it has, at the moment its request was accepted |
| `ControlRun.ControllerIsObeyed` | crates/rivetlink-agent/src/session/host.rs:233-488 | Whatever session is active, a client that the trust store lets control asks, sends its signed key exchange and any number of sealed records: every valid event is injected, in order and once, and nothing else is |
| `ControlRun.KeyNamesExactly` | crates/rivetlink-agent/src/session/host.rs:532-544 | A key event is valid exactly if its name has 1 to 64 ASCII letters, digits or dashes |
| `Admission.ExchangeConnectsExactly` | crates/rivetlink-agent/src/session/host.rs:317-386 | A key exchange is taken if and only if it names the active session, comes from its client, is the first, and was signed by that client for that session; otherwise nothing changes |
| `Admission.SealedInputReachesTheSink` | crates/rivetlink-agent/src/session/host.rs:448-488 | In a control session the next record that the client sealed reaches the sink exactly if it holds a valid event, and is spent in any case |
| `SessionLife.ScreenshotGoesToItsClient` | crates/rivetlink-agent/src/session/host.rs:389-446 | Over every packet sequence, a screenshot request is answered with a screenshot if and only if the session it names was accepted and not ended since, its client signed a key exchange for it, the capture succeeded and a number is left; it is sealed with the keys of that very request and exchange, numbered by the screenshots asked for before it |
| `Admission.IdentityIsParsedExactly` | crates/rivetlink-agent/src/session/host.rs:679-697 | An identity text is accepted exactly if it is the base64 text of a 32-byte curve point, but for white space around it |
| `Admission.EntryIsFoundExactly` | crates/rivetlink-agent/src/trusted.rs:62-64 | All accepted spellings of one identity find the same entry |
| `SessionLife.SessionIsOpenExactly` | crates/rivetlink-agent/src/session/host.rs:174-181 | Over every packet sequence, the host has a session if and only if some request was accepted and since then no other was accepted, none was closed and no screenshot refused; it is that request's, and without one nothing of any session is left |
| `SessionLife.ChannelIsOpenExactly` | crates/rivetlink-agent/src/session/host.rs:316-387 | It has a channel if and only if its client has also signed a key exchange for it since; the first one counts, and keys and transcript are those of that request and exchange |
| `SessionLife.ClosedSessionIsSilent` | crates/rivetlink-agent/src/session/host.rs:621-625 | Once a session is closed, or a screenshot refused, nothing reaches the sink and no session, key or channel exists until a request is accepted |
| `HostSession.RequestAuthorised` | crates/rivetlink-agent/src/session/host.rs:184-230 | No request gives a control session to a client that may not control |
| `HostSession.ExchangeKeyed` | crates/rivetlink-agent/src/session/host.rs:317-386 | A new channel is keyed by the host's pending ephemeral key and the client's verified one |
| `HostSession.RelayBindingDetermines` | crates/rivetlink-agent/src/session/host.rs:506-513 | The relay binding determines session, role and identity |
| `HostSession.ScreenshotHost.HasConsent` | crates/rivetlink-agent/src/session/host.rs:184-230 | Consent and what it adds to the trust store |
| `HostSession.ScreenshotHost.OnSessionRequest` | crates/rivetlink-agent/src/session/host.rs:233-313 | The request handler in place, checks in order |
| `HostSession.ScreenshotHost.OnKeyExchange` | crates/rivetlink-agent/src/session/host.rs:317-386 | The key-exchange handler in place |
| `HostSession.ScreenshotHost.OnConsoleInput` | crates/rivetlink-agent/src/session/host.rs:448-488 | The input handler in place |
| `RelaySession.Exchange` | crates/rivetlink-sdk/src/session.rs:93-172 | The loop's session, ephemeral key and channel after any packets, or its failure, are those of the specified turns |
| `RelaySession.ChannelIsAnswered` | crates/rivetlink-sdk/src/session.rs:107-172 | Over every packet sequence, a client that has a channel has it from an answer for the session last accepted, with the ephemeral key made for that acceptance, signed by the pinned identity |
| `RelaySession.RelayAnswerWasSigned` | crates/rivetlink-sdk/src/session.rs:139-147 | The pinned host itself signed that ephemeral key, as the host of that session |
| `RelaySession.SharedRelayKeyMeansAgreement` | crates/rivetlink-sdk/src/session.rs:312-327 | A key that client and host share belongs to runs in which each got exactly the packet the other sent |
| `RelaySession.RelayMirrorsIffAgree` | crates/rivetlink-agent/src/session/host.rs:515-531 | Client and host get channels that mirror each other if and only if they agree |
| `RelayJson.KexTextIsSelfDelimiting` | crates/rivetlink-protocol/src/packets.rs:115-123 | The JSON text of a key exchange packet, with anything after it, determines the packet and where it ends, for all bytes in its fields (section 7 of RFC 8259) |
| `RelayRun.InputComesFromAgreeingClients` | crates/rivetlink-agent/src/session/host.rs:448-488 | If only client runs seal in their direction, every injected event was sealed by a run of that very client which pinned this host, got its answer unchanged and sent the exchange the host took, while that session was open |
| `RelayRun.ConnectedRelayClientAgrees` | crates/rivetlink-sdk/src/session.rs:107-172 | Over every packet sequence, a connected client's peer key was signed by the pinned host for that session, and any host that shares a key of its channel is the pinned one and agrees on the whole exchange |
| `RelayRun.UndisturbedRelayConnects` | crates/rivetlink-sdk/src/session.rs:107-172 | On an undisturbed relay a client that the host admits and that pins it ends with a channel, so does the host, and they mirror each other |
| `RelayRun.ClientInputIsInjected` | crates/rivetlink-sdk/src/session.rs:174-200 | What such a controller seals with its channel is injected, every valid event once and in order, and nothing else |
| `RelayRun.ScreenshotComesBack` | crates/rivetlink-sdk/src/session.rs:208-282 | The screenshot that the host sealed next is what the client opens |
| `Stun.ParseBindingResponse` | crates/rivetlink-sdk/src/p2p.rs:307-328 | Total on every byte string; the attribute loop computes the specified result |
| `Stun.ResponseParses` | crates/rivetlink-sdk/src/p2p.rs:307-328 | On any printed Binding success response the first IPv4 XOR-MAPPED-ADDRESS is found, or none if there is none (sections 5 and 14 of RFC 8489) |
| `Stun.AddressComesBack` | crates/rivetlink-sdk/src/p2p.rs:319-323 | The address a server wrote is the one read, the XOR undone (section 14.2 of RFC 8489) |
| `Stun.OthersGiveNothing` | crates/rivetlink-sdk/src/p2p.rs:307-328 | A response to another transaction, a message of another kind or one without the magic cookie gives no address |
| `Stun.AddressIsFoundExactly` | crates/rivetlink-sdk/src/p2p.rs:307-328 | For all bytes, an address is found if and only if they are a success response to this transaction whose declared body is all there and begins with well-formed attributes, the first IPv4 mapped one of which says that address |
| `HeldInput.NothingStaysDown` | crates/rivetlink-agent/src/lan.rs:770-841 | After any run of inputs and mid-session releases, the final releases leave nothing down that was not down before the viewer came, for every key map |
| `HeldInput.RunCovers` | crates/rivetlink-agent/src/lan.rs:770-803 | What is down lies within what was down before and the image of what is held |
| `HeldInput.StaysExactUnlessLifted` | crates/rivetlink-agent/src/lan.rs:770-803 | When exactly the held names' keys are down, any event keeps that if and only if it does not lift a key that another held name stands for |
| `HeldInput.PressedIsHeldIffNeverLifted` | crates/rivetlink-agent/src/lan.rs:770-803 | From an empty desktop, exactly the held names' keys are down all through a run if and only if no event of it lifts so |
| `HeldInput.HeldMayBeUp` | crates/rivetlink-agent/src/input/mutter.rs:281-286 | Its negative instance: two names for one key, and a release that leaves a held name's key up |
| `HeldInput.HeldKeys.TrackInput` | crates/rivetlink-agent/src/lan.rs:770-783 | Key set and button array follow each input |
| `HeldInput.HeldKeys.Releases` | crates/rivetlink-agent/src/lan.rs:785-803 | A release for every key and button held, and nothing else |

## Left out

- Cryptographic primitives, codecs, JPEG and the operating system's input and capture interfaces are ideal or arguments, not implementations.
- TileDelta.ViewerAgrees: covers frame sizes whose tile count fits 32 bits, because the source sends index 0 for any larger one; JPEG is taken as lossless.
- VideoPipeline.WaitingViewersGetAKeyframe: about every waiting state and so with the history of its request; the conditions in both directions are in KeyframeDelivery.ViewerIsWokenExactly and KeyframeDelivery.RequestWakesExactly.
- Sealed.SealedChannel.Claim: no other thread acts inside the method; interleaved threads are in Sealed.NoncesAreUnique.
- Desktop.SwitchShowsOnlyTheNewCapture: about frames; end notices are in EndNotices.SwitchNoticeLandsExactly, and a stop may end a stream that another viewer started.
- Direct.AnswerIsForThisHello: allows a collision of the hello hash, and asks that lengths fit 64 bits and the frame limit.
- HostSession.InputComesFromControllers: about where input comes from; that its session was open is in SessionLife.InputComesFromOpenSessions.
- RelayRun.InputComesFromAgreeingClients: asks that nobody but clients seals in their direction, and that ephemeral keys, identities and session ids have their lengths.
- Calls waiting for the claim lock get it in any order; the request lock is fair.
- KeyframeDelivery.ViewerIsWokenExactly: about video streams and viewers that have not lagged; one that has asks again, which KeyframeDelivery.RequestWakesExactly covers.
- TileRecovery.DroppedFullFrameCosts: stated up to the wrap of the 32-bit frame counter, after which the next full frame comes sooner.
- The length limit on whole absolute paths is not modelled, only those on one name and on a relative path.
- A worker being replaced during a claim, a lost worker connection and cancelled requests are not modelled.
- Validity of X25519, SPAKE2 and ML-KEM encodings beyond their length, and of Ed25519 points outside the relay host's session requests, is not modelled; it only adds refusals.
- Trimming knows ASCII white space only, and the pin file is bytes rather than lossily decoded text.
- Order of the pins in their file and of released keys is any order rather than the sorted one.
- Folder listing, clipboard, screenshots' chunking, discovery, STUN retries, P2P path selection, relay server, configuration and command line are not modelled.
- PinStore.FileFollowsMemory: one store path per process, as the source documents.
- Real time appears as arguments and nondeterministic steps; rate limits on viewer complaints and screenshots are not proved.
