# simbeam: the protocols, modelled and proved

simbeam streams an iOS Simulator from a Mac to a tablet or a browser. A daemon on the Mac keeps a
connection to a signalling broker, authenticates the client that joins through it, builds a WebRTC
session with it and pumps H.264 into that session. This project models the parts of that program
whose correctness depends on interleaving, on long runs or on byte-exact parsing, and proves what
they promise.

| modules | what they are about |
|---|---|
| `AttachCore`, `AttachMachine`, `AttachInvariant`, `AttachSteps`, `AttachLog`, `AttachTheorems`, `AttachReplies` | the attach lifecycle: request threads, spawning attempts, their watchdogs and the feeds' pumps race over one generation counter, one slot and one pending mark |
| `AttachPower`, `AttachSerial` | shutdown and restart of a device while attaches and quality rebuilds are under way |
| `AttachEnd` | what a stop leaves behind |
| `BrokerSlot` | one client per daemon: busy refusal, rejoin, takeover, displacement, exit |
| `Presence`, `PresenceTruth` | the snapshot and the deltas a watcher receives, what it can rely on, and when the last frame is true |
| `AnnexB`, `AccessUnits` | the H.264 byte stream splitter, the access-unit assembler and the read loop around them |
| `Pairing`, `RtcSession`, `Signalling`, `SignallingReplies`, `SignallingRuns`, `PinDurability` | the daemon's message loop with the pairing window, the pinned keys and the candidate buffers |
| `Bulk` | chunked transfers on the reliable channel |
| `Clocks` | the helper's frame format, its durations, and the encoder's timer |
| `TextOrdering`, `Calendar`, `SubscriptionStore`, `Subscriptions` | last-write-wins subscriptions and the timestamps they are ordered by |

Three habits run through it. State the program updates in place is a class whose methods are tied to
a function on values (`Claim`, `Push`, `Handle`, `Upserted`, ...), and the properties are proved of
those functions. Concurrency is a machine whose events are single holds of a mutex or single pieces
of work done outside it; `After(run)` is the state after a list of events and every theorem is about
all lists. And each algorithm is compared with a description that does not mention it: a cut exactly
at the start codes, a grouping that breaks exactly where access units open, the claim no other
outdates.

Some promises made by comments do not hold of the code. For each of these a lemma gives a run, or a pair
of calls, that shows it, and another says exactly when the promise is kept:

* a later `issued_at` need not win: instants are stored in whole seconds
  (`Subscriptions.RenewalLost`, `Subscriptions.ReplacesExactly`);
* the last presence frame need not be true when the notifications of two changes overlap
  (`PresenceTruth.OverlapMisleads`, `PresenceTruth.EndsTrueExactly`);
* a shutdown can cancel the attach of another device when two channels carry lifecycle requests
  (`AttachSerial.CrossChannelStop`, `AttachSerial.StopTakesAnotherExactly`);
* a pinned key need not be in the pin file: its save may have failed, `simbeamd unpair` takes it out of the
  file and not out of the running daemon, and an unpairing that read the file before a save and writes it
  after undoes the save (`PinDurability.UnsavedKeyAuthenticates`, `PinDurability.UnpairedKeyAuthenticates`,
  `PinDurability.SavedKeyLost`, `PinDurability.UnsavedExactly`);
* a further offer without a new connect leaves a session behind (`SignallingRuns.SecondOffer`,
  `SignallingRuns.SessionsLeftBehind`, `SignallingRuns.OneSessionExactly`).

Verify it with `dafny verify dfyconfig.toml` (Dafny 4.11).

## Model

| member | source | states |
|---|---|---|
| `AttachTheorems.OneOwnerOneClose` | internal/server/attach.go:75-111 | in every reachable state each feed the backend returned is either closed exactly once and held by nobody, or open and held by exactly one of an attempt, the slot, a removing thread or a pump |
| `AttachTheorems.NothingLeaks` | internal/server/attach.go:199-235 | when every thread has finished, a feed is open if and only if it is the installed one |
| `AttachTheorems.GenerationsDiffer` | internal/server/attach.go:259-276 | no two attempts hold one generation, and none is ahead of the counter |
| `AttachTheorems.GenerationInvariant` | internal/server/rtcdispatch.go:123-138 | slot and pending mark are never both filled; the installed attachment holds the current generation; a device is pending if and only if exactly one unsettled attempt, for that device, holds it |
| `AttachTheorems.OneOutcome` | internal/server/attach.go:125-185 | every claimed attempt is acknowledged once, a quality rebuild by an echo that may come late, and ends installed with one "attached", failed with one typed error, or silent with a newer generation in existence; the error is the deadline's exactly when the watchdog won |
| `AttachReplies.FailureExactly` | internal/server/attach.go:144-184 | over any run the one terminal reply of a failed attempt is attach_timeout, not retryable, if and only if the watchdog fired in time; otherwise the code and the word on retrying are those the run says the backend refused with, or attach_failed and no retry when it gave no code |
| `AttachReplies.RequestStarts` | internal/server/attach.go:53-61 | in every reachable state an attach starts an attempt for the device it names and a quality request one for the live device, holding the new generation and pending; without a device nothing but the error reply happens |
| `AttachReplies.DetachNames` | internal/server/rtcdispatch.go:272-277 | in every reachable state a detach is bound to name the device served, and none if and only if none is |
| `AttachReplies.DetachedIsSaid` | internal/server/rtcdispatch.go:272-277 | no step changes the name a detach is bound to until it is said |
| `AttachReplies.PowerIsAnswered` | internal/server/rtcdispatch.go:242-302 | whatever else happens, a shutdown or restart ends in one reply that names the device asked for and says how the backend call it ends with went; a shutdown, not a restart, first says the device was detached |
| `AttachReplies.LiveExactly` | internal/server/attach.go:224-228 | the session is alive, as its pumps see it, if and only if it has not been cancelled |
| `AttachTheorems.Settled` | internal/server/attach.go:63-67 | outcome, remover and deadline decision of an attempt never change once made, over any continuation of the run |
| `AttachTheorems.NextStepEnabled` | internal/server/attach.go:75-111 | an unfinished attempt always has a step of its own to take, or waits only for its claimant's close |
| `AttachTheorems.OwnStepLowersRank` | internal/server/attach.go:75-111 | each own step of an attempt lowers its rank, which starts at six |
| `AttachTheorems.AtMostSixSteps` | internal/server/attach.go:75-111 | over any run, the own steps an attempt has taken and the rank it has left make at most six |
| `AttachTheorems.RefusedQualityChangesNothing` | internal/server/attach.go:278-290 | inserted anywhere in a run, a quality request with nothing attached leaves every continuation as possible as before, and every attempt, the slot, the generation and all that is said about any attempt the same |
| `AttachTheorems.RemovalDecidesStreamEnded` | internal/server/attach.go:187-198 | an installed attachment is in the slot until one remover takes it; stream_ended is sent at most once and only if that remover is its pump |
| `AttachTheorems.PumpSpeaksIffAlive` | internal/server/attach.go:224-234 | the pump that removed its attachment sends stream_ended if and only if the session is alive |
| `AttachTheorems.RemovedPumpIsSilent` | internal/server/attach.go:212-223 | a pump takes the slot exactly when nobody has removed its attachment, and otherwise says nothing |
| `AttachSteps.StepKeeps` | internal/server/attach.go:53-300 | each of the 25 atomic steps keeps the invariant, ages attempts one way, and says at most the one reply that becomes due |
| `AttachEnd.StopClosesEverything` | internal/server/attach.go:237-247 | after a detach, a power-off's stop or a teardown and with no attach after it, no feed is ever installed again, and once all is quiet every feed the backend returned has been closed exactly once |
| `AttachPower.ShutdownIsolated` | internal/server/rtcdispatch.go:242-259 | from the moment backend.Shutdown runs until the device is attached again, no installed feed and no attempt that could still install is for it |
| `AttachPower.StopTakesOnlyItsDevice` | internal/server/rtcdispatch.go:287-296 | between check and stop nothing of another device is in the slot or pending, unless another device was attached in between |
| `AttachSerial.SerialShutdown` | internal/server/rtcdispatch.go:279-302 | with attaches serial on the channel that powers off, both hold in every interleaving with quality rebuilds, finishing spawns, pump exits and teardown |
| `AttachSerial.CrossChannelStop` | internal/server/rtcdispatch.go:189-218 | with two channels there is a run in which the stop for one device supersedes another device's attempt |
| `AttachSerial.StopTakesAnotherExactly` | internal/server/rtcdispatch.go:287-296 | in every reachable state about to stop, the stop takes another device's feed or attempt if and only if the check, asked again, would say no while something is attached or pending; and after it nothing is served |
| `AttachCore.Dispatcher.ClaimAttach` | internal/server/attach.go:259-276 | takes the next generation, empties the slot, records the pending device, names the device served before, closes the removed feed once |
| `AttachCore.Dispatcher.RestartAttachment` | internal/server/attach.go:284-300 | claims for the live feed's own device and closes that feed, or does nothing at all when there is none |
| `AttachCore.Dispatcher.StopAttachment` | internal/server/attach.go:244-247 | a claim for no device |
| `AttachCore.Dispatcher.InstallFeed` | internal/server/attach.go:88-104 | installs only at the claimed generation; otherwise leaves the fields alone and closes the new feed |
| `AttachCore.Dispatcher.FailAttach` | internal/server/attach.go:169-176 | clears the pending mark and reports only at the claimed generation |
| `AttachCore.Dispatcher.PumpEnded` | internal/server/attach.go:212-224 | empties the slot and closes the feed only if the slot still holds this very attachment |
| `BrokerSlot.Conservation` | internal/signalbroker/broker.go:228-311 | per daemon, admissions are exits that send peerLeft, displacements and the sitting client; each counter counts the clients it is named for, takeovers those that told another key to go; every join is offline, busy, without a nonce, admitted or still in flight |
| `BrokerSlot.OneSitter` | internal/signalbroker/broker.go:254-276 | the slot names the one goroutine that sits with this daemon |
| `BrokerSlot.AdmittedExactly` | internal/signalbroker/broker.go:253-276 | in every reachable state a join that reaches the slot gets it if and only if the slot was empty, held the same key, or takeover was asked; otherwise it is refused and no slot changes |
| `BrokerSlot.LookupExactly` | internal/signalbroker/broker.go:239-246 | over any run a join finds its daemon if and only if the last connection registered under the id is still open, and then that one |
| `BrokerSlot.SittingServed` | internal/signalbroker/broker.go:316-350 | a sitting client's message is always cleared and acted on: one frame passed on, two for a good proof, the end for a bad one |
| `BrokerSlot.BusyChangesNothing` | internal/signalbroker/broker.go:268-274 | inserted anywhere in a run, a busy refusal leaves every continuation of the others as possible as before, with the same slots, clients and counters |
| `BrokerSlot.OnlyRejoinOrTakeoverDisplaces` | internal/signalbroker/broker.go:256-289 | a sitting client is displaced only by an admission with its own key or with takeover, which then holds the slot |
| `BrokerSlot.DisplacedActsAtMostOnce` | internal/signalbroker/broker.go:286-350 | from its displacement on a client never has the slot, never sends peerLeft, acts on at most one message and writes at most two frames to the daemon, for any scheduling, displacement between the two frames of a proof included |
| `BrokerSlot.DisplacedExits` | internal/signalbroker/broker.go:316-350 | each step of a displaced client brings it nearer its exit, at most six away, and the exit is the silent one |
| `BrokerSlot.DisplacedBound` | internal/signalbroker/broker.go:316-350 | over any continuation of a run, a displaced client takes at most six more steps of its own |
| `BrokerSlot.DisplacedProgress` | internal/signalbroker/broker.go:316-350 | until it is gone, a displaced client always has a step of its own to take |
| `BrokerSlot.DaemonConn.Enter` | internal/signalbroker/broker.go:253-276 | admitted exactly when the slot is empty, holds the same key, or takeover is asked; then seated, naming the evicted client |
| `BrokerSlot.DaemonConn.Turn` | internal/signalbroker/broker.go:321-349 | one message of a client's loop: nothing goes to the daemon and the loop ends unless the slot is still its own and a proof is good; otherwise two frames for a proof, one for the rest |
| `BrokerSlot.DaemonConn.Leave` | internal/signalbroker/broker.go:299-305 | clears the slot only if it is the leaver's own |
| `PresenceTruth.SnapshotFirst` | internal/signalbroker/presence.go:76-85 | the first frame is the snapshot of the daemon map at registration; all later frames are deltas of changes that happened |
| `PresenceTruth.MapIsPresence` | internal/signalbroker/broker.go:178-204 | over any run a daemon is on the map if and only if the last connection registered under its id is open, and then the map names that connection |
| `PresenceTruth.NothingLost` | internal/signalbroker/presence.go:110-124 | each change committed after registration has reached the watcher exactly once when its notification is done |
| `PresenceTruth.OnlyWatched` | internal/signalbroker/presence.go:110-118 | a watcher is told only of daemons it asked about |
| `PresenceTruth.LastFrameIsTrue` | internal/signalbroker/broker.go:178-197 | if each change of an id was notified before the next, and all are, the frames' last word on it is the daemon map's, which `PresenceTruth.MapIsPresence` says is who is there |
| `PresenceTruth.EndsTrueExactly` | internal/signalbroker/presence.go:110-124 | in every reachable state, every way of finishing the outstanding notifications leaves a watcher with the truth about a daemon if and only if each one still owed to it says what the map says and, none being owed, what it was told does |
| `PresenceTruth.OverlapMisleads` | internal/signalbroker/broker.go:178-197 | a daemon drops and registers again; announced in reverse by their two goroutines, this leaves the watcher believing a present daemon absent, with nothing outstanding |
| `Presence.Broker.Watch` | internal/signalbroker/presence.go:76-82 | registers the watcher and tells for every watched id whether a daemon is there |
| `Presence.Broker.Targets` | internal/signalbroker/presence.go:111-118 | exactly the watchers that track the id |
| `Presence.Broker.Unregister` | internal/signalbroker/broker.go:189-194 | removes the daemon only if no re-register took its slot |
| `AnnexB.IndexStartCode` | internal/encoder/nal.go:29-41 | the first offset at which a start code of either length begins, -1 if and only if there is none |
| `AnnexB.SplitNALUnits` | internal/encoder/nal.go:49-65 | the in-place loop returns the units and remainder of `Split` |
| `AnnexB.SplitAppend` | internal/encoder/nal.go:43-48 | splitting a + b gives the units of a, then those of a's remainder + b, wherever the boundary falls |
| `AnnexB.SplitIsCut` | internal/encoder/nal.go:43-65 | units and remainder are the input's bytes; every unit opens with a start code and ends where the next one begins; the remainder holds no complete unit |
| `AnnexB.CutIsSplit` | internal/encoder/nal.go:43-65 | and any cut with those three properties is the splitter's |
| `AnnexB.SplitRoundTrip` | internal/encoder/nal.go:43-65 | well-formed units written back to back are recovered, the last as the remainder |
| `AccessUnits.StartsPictureIsFirstMbZero` | internal/encoder/nal.go:80-94 | the one-bit test holds exactly when the slice header's first ue(v) decodes to 0 |
| `AccessUnits.UnitByHeader` | internal/encoder/nal.go:67-110 | for a unit made of a start code of either length, a header byte of any type below 32 and any payload, the type read is that type; it is a slice exactly for types 1 to 5, and opens an access unit exactly for types 6 to 9 and for a slice whose first ue(v) is 0 or whose header is cut off |
| `AccessUnits.UeRoundTrip` | internal/encoder/nal.go:80-87 | the ue(v) the tests are stated by reads back every number written by section 9.1 of ITU-T H.264 |
| `AccessUnits.AuAssembler.PushNal` | internal/encoder/nal.go:127-140 | emits the forming unit's bytes exactly when it holds a slice and the new unit opens an access unit |
| `AccessUnits.FlattenNals` | internal/encoder/nal.go:142-152 | the units' bytes back to back |
| `AccessUnits.EncodeLoop` | internal/encoder/ffmpeg.go:208-243 | over any list of reads the frames channel gets all units in order, or, when the context ends first, as many as it took, each with the timer's duration; otherwise what is forming and carried over is that of the whole stream |
| `AccessUnits.PushAll` | internal/encoder/ffmpeg.go:223-234 | the units of one read, pushed and sent in order until the context ends |
| `AccessUnits.FramesOut.Send` | internal/encoder/ffmpeg.go:228-233 | a unit goes out with the time since the one before, unless the context has ended |
| `AccessUnits.ChunkIndependence` | internal/encoder/ffmpeg.go:217-223 | any list of reads ends in the state of one read of their concatenation |
| `AccessUnits.GroupIsGrouping` | internal/encoder/nal.go:96-140 | groups keep all units in order, finished ones hold a slice, none holds an opening unit after a slice, every cut falls at an opening unit |
| `AccessUnits.GroupingIsGroup` | internal/encoder/nal.go:96-140 | and any grouping with those properties is the assembler's |
| `AccessUnits.EncodeLossless` | internal/encoder/ffmpeg.go:214-243 | emitted units, forming unit and carried bytes are, in this order, all bytes read |
| `AccessUnits.UnitsWellFormed` | internal/encoder/nal.go:96-140 | every emitted unit holds a slice, no slice after its first starts a picture, and no NAL of type 6 to 9 follows a slice in it |
| `AccessUnits.CutsByHeader` | internal/encoder/nal.go:96-140 | by the units' own headers: every emitted access unit holds a slice, nothing after its first slice begins an access unit, and all but the first start with a unit that begins one |
| `Pairing.PhaseMatchesVerdict` | internal/server/pairing_window.go:88-104 | the phase State reports and the result verify gives agree in every window state |
| `Pairing.FirstGoodProofOnly` | internal/server/pairing_window.go:47-78 | over any proofs, clock values and cancellations after one arming, which of the four verdicts the next proof gets: accepted if and only if it is the first good one in time and before any cancellation, used after that one, expired before it when late or cancelled, bad otherwise |
| `Pairing.PairingWindow.Verify` | internal/server/pairing_window.go:50-69 | the verdict in the code's order of precedence; only an accepted proof uses the window up |
| `Pairing.PairingWindow.OpenWindow` | internal/server/pairing_window.go:38-45 | arms the window afresh whatever its state was |
| `Pairing.PairingWindow.Close` | internal/server/pairing_window.go:73-78 | clears the secret and marks the window cancelled, keeping the rest |
| `Pairing.PairingWindow.State` | internal/server/pairing_window.go:91-104 | the phase of the window at that instant |
| `Pairing.PinnedStore.Add` | internal/server/pinned.go:60-65 | the key is in memory; the file holds memory's keys only if the save succeeded |
| `Pairing.PinnedStore.Remove` | internal/server/pinned.go:68-73 | the key is out of this store's memory; the file follows only if the save succeeded |
| `Pairing.PinnedStore.Contains` | internal/server/pinned.go:52-57 | answers from memory |
| `PinDurability.FileExactly` | cmd/simbeamd/main.go:618-633 | over any run of the daemon and any unpair processes, the file is what the daemon's memory held at its source, the last save that what was written goes back to, less the keys unpairings dropped on the way |
| `PinDurability.UnsavedExactly` | internal/server/pinned.go:59-73 | over any such run a key is in memory and not in the file if and only if it was pinned at the file's source and has been dropped since, or was not and has been enrolled since; and what is in the file is in memory |
| `PinDurability.MemoryExactly` | internal/server/remote.go:249-263 | the running daemon never forgets a key: it has what it had at any earlier time and what was enrolled since |
| `PinDurability.SequentialExactly` | internal/server/pinned.go:59-73 | while nobody writes the file between an unpair process's reading and writing, a key is in the file if and only if it was pinned at the last successful save and not unpaired since, and in memory if and only if it was pinned then or enrolled since, each of those saves having failed |
| `PinDurability.SaveRestores` | internal/server/pinned.go:78-108 | the next enrolment that is saved puts every key in memory into the file, unpaired ones included |
| `PinDurability.UnsavedKeyAuthenticates` | internal/server/remote.go:249-263 | there is a run in which a key whose save failed authenticates although no file holds it |
| `PinDurability.UnpairedKeyAuthenticates` | cmd/simbeamd/main.go:618-633 | a run in which an unpaired key authenticates with the running daemon although no save failed |
| `PinDurability.SavedKeyLost` | internal/server/pinned.go:59-73 | a run in which a saved and authenticated key is lost from the file to a concurrent unpairing of another |
| `RtcSession.CandidatesDelivered` | internal/rtc/peer.go:136-145 | over any use of a session no candidate reaches the connection before the remote description, and each taken one reaches it once in arrival order or is still held |
| `RtcSession.OffersDescribed` | internal/rtc/peer.go:130-136 | the connection is given exactly the offers it takes, in order |
| `RtcSession.EarlyCandidatesSurvive` | internal/server/remote.go:301-306 | up to 64 candidates handed over ahead of the answer are all applied, in order, behind the description |
| `RtcSession.Peer.Answer` | internal/rtc/peer.go:130-164 | applies the buffer behind the description and empties it, or changes nothing when the description is refused |
| `RtcSession.Peer.AddCandidate` | internal/rtc/peer.go:182-193 | buffers at most 64 before the description, applies directly after it |
| `Signalling.SignalLoop.HandleConnect` | internal/server/remote.go:200-240 | drops the previous client, admits pinned keys and keys the window accepts, and challenges those with a fresh nonce |
| `Signalling.SignalLoop.HandleProof` | internal/server/remote.go:243-263 | authenticates only a signature over the current nonce, after the key was saved when enrolling; otherwise drops the client |
| `Signalling.SignalLoop.HandleOffer` | internal/server/remote.go:264-315 | refused until authenticated; otherwise a new session takes the held candidates and replaces the current one |
| `Signalling.SignalLoop.HandleCandidate` | internal/server/remote.go:316-335 | ignored unless authenticated and negotiated; held up to 64 before a session, handed to it after |
| `Signalling.SignalLoop.HandleMessage` | internal/server/remote.go:177-342 | the loop's one turn, for every kind of message; the current session is closed exactly by the turns that clean up, save that an offer never closes the old one |
| `SignallingReplies.ConnectAnswered` | internal/server/remote.go:200-240 | a connect is challenged with the nonce just drawn if and only if the key is pinned or the window takes its proof, and a nonce could be drawn; otherwise the code names the window's state |
| `SignallingReplies.ProofAnswered` | internal/server/remote.go:243-263 | a proof is taken in silence if and only if a challenge is out, the signature is the key's over it and an enrolling key could be saved; otherwise the client is dropped and told which failed |
| `SignallingReplies.OfferAnswered` | internal/server/remote.go:264-315 | an offer is answered with the connection's own description if and only if the client is authenticated and the session could be built and took it; otherwise the reply names what failed |
| `SignallingReplies.HonestClient` | internal/server/remote.go:200-315 | from any state a client that signs the challenge it is sent and then offers is authenticated, pinned and answered, if the daemon's own part works |
| `SignallingReplies.TrickleExactly` | internal/server/remote.go:241-242 | over any run the loop trickles if and only if the broker's last word since the last clean-up said so |
| `SignallingRuns.OneKeyPerOpening` | internal/server/pairing_window.go:38-78 | over any run, the keys the loop pinned map injectively to openings of the window, and every other pinned key was stored before |
| `SignallingRuns.Authenticated` | internal/server/remote.go:177-268 | a session implies an authenticated client, and that one signed the nonce of the latest connect with a key pinned at that connect or saved by that proof |
| `SignallingRuns.CandidatesReachTheSession` | internal/server/remote.go:316-335 | across both buffers the candidates the loop takes reach the session's connection once each, in order, behind the description |
| `SignallingRuns.SessionsLeftBehind` | internal/server/remote.go:277-282 | over any run, a session built earlier is open and not the current one if and only if an offer got a session while it was current; no later cleanup ever closes it |
| `SignallingRuns.OneSessionExactly` | internal/server/remote.go:164-192 | no session but the current one is open if and only if no offer ever got a session while the loop had one |
| `SignallingRuns.SecondOffer` | internal/server/remote.go:264-282 | a run in which a pinned client sends two offers and its first session stays open |
| `Bulk.ChunkSizeFits` | internal/server/bulk.go:236-244 | the chunk size is 1024, or what was negotiated, positive and never more than either |
| `Bulk.ChunksFit` | internal/server/bulk.go:263-269 | chunks are non-empty, at most the size, all of it but the last, and concatenate to the payload |
| `Bulk.Channel.SendChunked` | internal/server/bulk.go:252-271 | sends the header and all chunks, or exactly the prefix the channel took before it failed, and says which |
| `Bulk.TransfersRoundTrip` | internal/server/bulk.go:236-271 | a receiver that counts bytes against headers recovers every transfer of a sequence, with other text frames interleaved anywhere; each job's frames are in the stream, its chunks non-empty and at most 1024 bytes and the size negotiated for it |
| `Clocks.ParseRoundTrip` | internal/backend/sim/control.go:495-525 | the parser recovers every packet of a serialised stream |
| `Clocks.ParseTruncated` | internal/backend/sim/control.go:512-525 | cut anywhere, the stream yields exactly the packets that arrived whole |
| `Clocks.ReadFrames` | internal/backend/sim/control.go:500-545 | the frames are those of the parsed packets, or as many of them as were taken before the reader was cancelled or closed |
| `Clocks.FramesWellFormed` | internal/backend/sim/control.go:526-537 | one frame per packet with its data, and a positive duration for any 64-bit times |
| `Clocks.DurationExactly` | internal/backend/sim/control.go:526-533 | within int64 nanoseconds, a thirtieth of a second for the first frame and for one that does not advance, the difference of the times for any other |
| `Clocks.DurationsSumToElapsed` | internal/backend/sim/control.go:526-533 | for increasing times within int64 nanoseconds the durations sum to one nominal frame plus the time elapsed |
| `Clocks.TimerTracksClock` | internal/encoder/ffmpeg.go:115-139 | after the first frame the encoder's durations sum to at least the time elapsed and at most a millisecond a frame more |
| `Clocks.TimerExactly` | internal/encoder/ffmpeg.go:115-139 | each duration is the gap or a millisecond if that is longer, so the sum is the time elapsed if and only if no two frames are closer than a millisecond |
| `Clocks.FrameTimer.Next` | internal/encoder/ffmpeg.go:130-139 | one tick of the timer, remembering the instant |
| `Calendar.CivilOf` | internal/signalbroker/subscription.go:83-85 | the valid UTC date and time that names exactly this second |
| `Calendar.DaysByRule` | internal/signalbroker/subscription.go:83-85 | days before a year by the closed form of the Gregorian leap rule |
| `Calendar.LayoutReadsBack` | internal/signalbroker/subscription.go:83-85 | the stored text has the layout of RFC 3339 in UTC, each field at its place and readable |
| `Calendar.StampOrder` | internal/store/sqlite.go:39-42 | for four-digit years, text order of stored timestamps is the order of whole seconds, and equal text is equal seconds |
| `Calendar.FiveDigitsMisorder` | internal/store/sqlite.go:39-42 | shows that the hypothesis of `Calendar.StampOrder` is needed: with five-digit years, which only a clock beyond year 9999 lets in, the text order is wrong |
| `SubscriptionStore.Store.Upsert` | internal/store/sqlite.go:43-56 | the row is replaced exactly when it is missing or its issued_at is smaller as text |
| `SubscriptionStore.Store.Get` | internal/store/sqlite.go:59-72 | the stored row, or none |
| `SubscriptionStore.Store.IsActive` | internal/store/sqlite.go:76-91 | whether the stored expiry is later than now; no row is not active, unreadable text is an error |
| `SubscriptionStore.RowIsLatest` | internal/store/sqlite.go:39-56 | after any puts a key has a row if and only if a claim was made for it, and the row is one no other claim outdates |
| `SubscriptionStore.Convergence` | internal/store/sqlite.go:39-42 | any order and repetition of the same claims, distinct in issued_at, leaves the same claims |
| `SubscriptionStore.SwapsExactly` | internal/store/sqlite.go:43-56 | two puts can be swapped over every table if and only if they differ in key or issued_at or make one claim |
| `SubscriptionStore.WinnerStored` | internal/store/sqlite.go:43-56 | the table holds the first of the puts with the greatest issued_at, its update time included |
| `Subscriptions.Endpoint.HandleSubscription` | internal/signalbroker/subscription.go:42-95 | each status exactly when: 204 for a preflight, 405 for another verb, 503 without a store, 401 for a missing signature, 200 for a call within the window with readable times that the store takes, 500 when the store fails, 400 for the rest; the table changes only on 200 |
| `Subscriptions.Endpoint.Upsert` | internal/signalbroker/subscription.go:59-95 | the same for a readable request, whose checks come in this order |
| `Subscriptions.SoundExactly` | internal/signalbroker/subscription.go:59-79 | a call passes if and only if it is signed twice, both times can be read, and it was issued within 48 hours of the clock |
| `Subscriptions.RowSays` | internal/signalbroker/subscription.go:80-87 | an accepted call is put under its own key with its own product and the texts of its own two instants and of the clock |
| `Subscriptions.ActiveUntilExpiry` | internal/store/sqlite.go:74-91 | after an accepted call for a new key the subscription is active exactly until the second of its expiry |
| `Subscriptions.RunIsMerge` | internal/signalbroker/subscription.go:80-90 | a history of calls leaves what the puts of its accepted calls leave |
| `Subscriptions.LatestSecondWins` | internal/signalbroker/subscription.go:37-41 | over accepted calls a key's row is the first record of the latest whole second |
| `Subscriptions.EndpointConverges` | internal/signalbroker/subscription.go:37-41 | histories that accept the same requests, one per key and second, in any order, with any repetition and at any server time, leave the same subscriptions |
| `Subscriptions.ReplacesExactly` | internal/store/sqlite.go:39-56 | a second accepted call replaces the first if and only if it was issued in a later whole second |
| `Subscriptions.RenewalLost` | internal/signalbroker/subscription.go:84-85 | a concrete pair of accepted calls of which the newer instant is dropped |

## Left out

- AttachMachine.Step: the generation is unbounded, so the wrap of its 64-bit counter is not modelled.
- AttachMachine.Step: sends of replies are appended to one log in the order they happen after unlocking; nothing is claimed about the order of "attached" against "detached" at the client.
- AttachMachine.Step: a feed's frames and a failing track write are one event, the end of the frames; that the backend returns after its context is cancelled is an assumption of settling.
- AttachPower.ShutdownIsolated: speaks of the session's own feed and attempts; processes the backend may have started are outside the model.
- BrokerSlot.Step: messages from the daemon to its client, trickle negotiation and the proof, pairing and TURN counters are not modelled; socket writes to a daemon are taken to be attempted, whatever comes of them.
- Presence.Step: a write to a watcher is taken to succeed while the watcher is registered; deadlines and keepalive are not modelled.
- RtcSession.Peer.Answer: the message loop is its only caller and the only one to add remote candidates, so none arrives while the buffer is drained; the wait for local gathering changes no modelled state and is left out.
- Signalling.SignalLoop.HandleMessage: local candidates, the session's own close callback, back-off and the reconnect log are not modelled; a proof that verifies again runs the enrolment hook again, which is not modelled either.
- Bulk.TransfersRoundTrip: the size of text frames after JSON encoding is not bounded by the model, as the code does not bound it.
- SignallingRuns.Step: a run is the life of one daemon process, which loads the file when it starts; a restart is the start of another run.
- Pairing.PinnedStore.Add: names of clients, file modes and the atomic rename are a single save that succeeds or fails.
- Subscriptions.Endpoint.HandleSubscription: response headers, the text of error bodies and timestamps before year 0 are not modelled; reading RFC 3339 text is a parameter.
- Which channel a lifecycle reply goes to, boot, input, shake, screenshot capture and the simulator list: no further protocol state.
- WebRTC, ICE and websocket transport, signatures and HMAC: free events and uninterpreted predicates.
- Processes, ffmpeg arguments, key maps, the browser backend, the updater, TURN credentials, quality clamping and logging: outside the protocols.
