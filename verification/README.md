# Verification of the LE Audio player

A Dafny model of the parts of the LE Audio player that decide something: how the members of a
coordinated set are kept at one volume, how audio stream endpoints are set up and released and
how audio modes pause and resume each other, how quality of service is negotiated, what travels
on the wire, and the three bounded tables (hearing-aid presets, telephone calls, client
configuration). `dafny verify dfyconfig.toml` checks everything.

Code that works in place is modelled in place: classes with the fields of the C structures,
arrays for buffers and tables, loops where the C code loops. Every such method is proved against
a function on the state, and the properties are proved of those functions over whole runs.

## How the files fit together

- Volume: `VolumeControl` (opcodes, the controller's own check, the renderer), `VolumeClient`
  (the controller's handlers), `VolumeSync` (controller, members and channels as one system;
  safety on every run for any number of members), `VolumeTermination` (at most two connected
  members come to rest, and where), `VolumeChase` and `VolumeRest` (three or more need not: the
  exact condition).
- Streams and modes: `QosNegotiation`, `AseControl` (the endpoint transition table), `AudioMode`
  (what every handler does to the state), `AudioPlayer` (the same in place), `AudioModeRuns`
  and `AudioModeRanks` (what holds on every run at all), `AudioModeMedia` (when the media service can
  be played remotely), `AudioModeRequests` (which requests are accepted), `AudioModeWrites` (what is
  written to which endpoint), `AudioModeNegotiation` (the player's stream is what was negotiated),
  `Orchestration` (player, endpoints and messages in flight as
  one system, and what every delivery keeps), `OrchestrationRequests` (what every request keeps,
  for streams and calls), `OrchestrationRuns`, `OrchestrationOutcome`, `OrchestrationJourneys` (no
  rejection, termination, destination, groups, round trips), `OrchestrationNegotiation` (when a mode
  settles, every endpoint has been heard), `OrchestrationCalls` (where answers to
  a call lead, and exactly when an acceptance is rejected), `OrchestrationRace` (why an early stop
  goes wrong), `OrchestrationStops` (exactly when, in every live state), `OrchestrationWitnesses`
  (runs from the beginning into what goes wrong).
- Wire formats: `Bytes`, `CodecConfig`, `Metadata`, `AscsCommands`, `Broadcast`,
  `BroadcastParser`, `Layouts` (every octet where the standards put it), `Acceptance` (what the
  parsers accept, and what they refuse).
- Tables: `PresetList` and `PresetHistory`, `CallTable`, `CallTableRuns` and `CallHolds` (hold and
  retrieve as the two ends of a call see them), `CccdStore`.

## What the assumptions mean

- A system (`VolumeSync`, `Orchestration`) is a set of steps over first-in first-out channels.
  Deliveries, endpoint progress and local changes happen in any order. Writes to connected
  members are accepted for sending.
- The change counter is kept as an unbounded count whose value modulo 256 travels. Safety needs
  no bound on outstanding changes; termination assumes that every member has made fewer than 256
  changes since the count that the oldest write in flight to it carries
  (`VolumeTermination.AllFresh`). That writes carry ascending counts is part of the invariant.
- The disciplined runs of `OrchestrationRuns` deliver requests of any kind, calls included, in a
  settled mode and after every listed endpoint has reported Streaming, or as the answer to a call
  that rings without a stream; a call may be accepted at any time while a stream runs, but not
  over endpoints that are listed already. Neither half is a convenience. A mode settles when all
  endpoints are Enabling: `OrchestrationRace` and `OrchestrationStops` prove exactly when a stop
  in between leaves a Release behind, and that an operation can end up rejected for it. And
  `OrchestrationCalls.AcceptIsRejectedIff` proves that an acceptance while a stream runs is
  rejected exactly in the case left out.
- What a peer offers at a start (which endpoints are picked, the context of a conversation) is a
  parameter. A peer offers at least one endpoint, none twice, and no more than the list still
  holds. Whether both sides support an in-band ringtone is fixed for a run, but arbitrary; when a
  call is accepted only the player's own support counts, as in the code.
- "CIS established" can happen for every endpoint that is Enabling while the group is up, for one
  that an accepted call adds to a running stream too.
- In `join`, the loop that looks for incoming calls (`lepl_tbs.c:439-445`) is read as a loop over
  the listed ids.
- The stream macros are read as little-endian. In the wire formats memory past the received bytes
  is not modelled: reading there has an answer of its own (`Overread`, `PastEnd`, `CutShort`,
  `Overrun`).
- The control-point parser reads its length table one place past the end for type 6
  (`gatt_profiles/ga_lib_ascs.c:434-435`); whatever stands there, the type is refused, and the
  model gives one answer for it.

## Where the code does less than it seems to promise

The lemma named says exactly when it happens.

- A stop between Enabling and Streaming loses the release (`OrchestrationRace.StopIsSafeIffAllStream`),
  and from every beginning with an endpoint there is a run on which an operation is rejected for it
  (`OrchestrationRace.RejectedFromTheBeginning`). A stop while the endpoints of an accepted call are
  still joining can also end the release too soon, with Release operations on their way
  (`OrchestrationStops.StopIsOrderlyIff`, and a run into such a moment in
  `OrchestrationWitnesses.EarlyEndIsReached`).
- A call accepted while a stream runs configures its endpoints whatever they are doing; it is
  rejected exactly if it does not ring in-band and one of them is listed already
  (`OrchestrationCalls.AcceptIsRejectedIff`, and a run from every beginning with an endpoint in
  `OrchestrationCalls.AcceptCanBeRejected`).
- A call that rings without a stream and is accepted gets one exactly if the player itself does not
  support an in-band ringtone (`OrchestrationCalls.AcceptedRingArrivesIff`, and a call that gets none in
  `OrchestrationWitnesses.LostCallIsReached`).
- Accepting a call in no mode sets up endpoints for nothing, and a remote call end in no mode leaves
  the player in transit for good (`OrchestrationCalls.AcceptStrands`, `OrchestrationCalls.RemoteEndStrands`).
- A release over endpoints of which some end Idle and some Codec Configured never completes
  (`OrchestrationJourneys.StopArrives`, and such a set of endpoints streaming in
  `OrchestrationWitnesses.MixedIsReached`).
- A start from no mode does not look at what is paused: a mode comes to be paused behind a lower
  one exactly by such a start (`AudioModeRanks.EventRanksIff`, `AudioModeRanks.OutrankedFromStart`).
- A broadcast is stopped by its own state, and a remote call end is not checked against the mode:
  either can leave media playing in no mode (`AudioModeRuns.EventKeepsShape`,
  `AudioModeRuns.PlayingWithoutMode`). Media that plays already is then not started when it is asked
  for, and the player is stuck (`OrchestrationJourneys.StartArrives`).
- A set that is left alone is sure to come to rest if and only if at most two members are connected
  (`VolumeRest.RestIffAtMostTwo`); with more, two rival volumes can chase each other forever, even
  if no message in flight is passed over forever.
- With a relative step of 0, and only then, the controller can wait for a notification that never
  comes (`VolumeControl.GateNeedsAPositiveStep`).
- The delay depends on the order of reports when the endpoints' windows do not meet, and the PHY
  is always the last report's (`QosNegotiation.OrderIsIrrelevantIffWindowsMeet`).
- A generic preset update that skips records to get to a higher one loses that one too
  (`PresetHistory.HigherRecordIsLost`); the record it is said to follow is always lost
  (`PresetHistory.PrecedingRecordIsLost`). `PresetHistory.UpdateIsAsAskedIff` says exactly when the
  array ends up as the notification asks, and `PresetHistory.UpdateThatLosesTwo` is a case reached by
  reading presets.
- A BASE is written before its size is looked at, and its size is kept in eight bits: it is in the
  buffer whole, and its size reported, if and only if it fits in the buffer and in 255 bytes
  (`Broadcast.BuiltRightIffItFits`). With 125 BISes that set nothing, 266 bytes go into a buffer of
  252 and 10 are reported (`Broadcast.OverrunGoesUnnoticed`).
- Metadata behind a list of content-control ids is misread: the reader steps one octet too far
  (`Metadata.ListIsOverstepped`), and a context is read right exactly if the list stands behind it
  (`Metadata.ListIsReadRightIffLast`).
- A second hold by the remote end of a call takes this end's hold away
  (`CallHolds.RemoteHoldHoldsThere`, `CallHolds.SecondRemoteHoldLosesOurs`).
- Placing a call does not hold the active one (`CallTableRuns.PlacingHoldsNothing`), and two calls
  have the same id exactly if they are a multiple of 255 allocations apart (`CallTableRuns.SameIdIff`,
  `CallTableRuns.TwoActiveWithoutWindow`).

## Model

| member | source | states |
|---|---|---|
| `VolumeControl.GateIsExact` | lepl_vcs.c:6-60 | the controller lets an opcode through if and only if a renderer with the same setting would change it, for every opcode and every step size from 1 up |
| `VolumeControl.GateNeedsAPositiveStep` | gatt_profiles/ga_lib_vcs.c:72-119 | the controller's check agrees with a renderer on every opcode and setting if and only if the renderer's relative step is not 0; else a write is sent that is answered with nothing |
| `VolumeControl.RelativeStepIsExact` | gatt_profiles/ga_lib_vcs.c:72-119 | a relative opcode keeps the mute state and moves the volume by exactly the step, or by less only by landing on 0 or 255 |
| `VolumeControl.UpUndoesDownIff` | gatt_profiles/ga_lib_vcs.c:72-119 | up takes back down by the same step if and only if the volume had that far to go, or was full and the step spans the range |
| `VolumeControl.DownUndoesUpIff` | gatt_profiles/ga_lib_vcs.c:72-119 | the mirror image: down takes back up |
| `VolumeControl.UnmuteRelativeIsBoth` | gatt_profiles/ga_lib_vcs.c:88-95 | an unmuting relative opcode is the relative one followed by Unmute |
| `VolumeControl.RepeatedStepsAdd` | gatt_profiles/ga_lib_vcs.c:72-119 | any number of steps one way goes that many times the step, within the range |
| `VolumeControl.TwoWritesReachAny` | gatt_profiles/ga_lib_vcs.c:96-107 | an absolute write and a mute write lead from any setting to any other, in either order |
| `VolumeControl.Renderer.CheckVolumeStateValidity` | gatt_profiles/ga_lib_vcs.c:72-119 | the renderer ends in the setting the opcode asks for, clamped to 0 and 255, and reports a change exactly when there is one |
| `VolumeControl.Renderer.NotifyVolumeState` | gatt_profiles/ga_lib_vcs.c:122-141 | the stored eight-bit counter stays the image of a count that grows by one; the payload is volume, mute, counter |
| `VolumeControl.Renderer.WriteControlPoint` | gatt_profiles/ga_lib_vcs.c:72-141 | a stale counter or a write that changes nothing leaves state and counter alone and sends no notification |
| `VolumeClient.Controller.SetVolume` | lepl_vcs.c:62-90 | exactly the member addressed gets one write with its cached counter and starts waiting, if the check passes; otherwise nothing changes |
| `VolumeClient.Controller.SetMuteState` | lepl_vcs.c:92-120 | the same for mute and unmute |
| `VolumeClient.Controller.SyncVolumeState` | lepl_cap.c:98-113 | a waiting member is left alone; otherwise mute comes before volume |
| `VolumeClient.Controller.HandleNotification` | lepl_cap.c:115-134 | the loop over the members leaves each of them synchronised against the notified setting, the notifier cached and no longer waiting |
| `VolumeClient.Controller.SetVolumeOfSet` | lepl_cap.c:71-88 | a user command reaches every connected member and no other |
| `VolumeClient.SyncAlwaysWrites` | lepl_cap.c:98-113 | an idle member that differs always gets exactly one write, with its cached counter, and the check never holds it back; one that agrees gets none |
| `VolumeClient.UserCommandReaches` | lepl_cap.c:71-88 | a user command is written, once and with the cached count, to exactly the connected members whose cached setting it would change |
| `VolumeSync.SyncPreserves` | lepl_cap.c:98-113 | synchronising keeps a member justified in waiting, or in agreement with the new target |
| `VolumeSync.StepPreservesInv` | lepl_cap.c:98-134 | every step of every participant keeps: waiting means news or a write with the cached counter is on the way, writes in flight carry ascending counts, and every member waits or agrees with the set |
| `VolumeSync.RunPreservesInv` | lepl_cap.c:98-134 | the same on whole runs, for any number of members |
| `VolumeSync.QuiescentAgrees` | lepl_cap.c:115-134 | nothing in flight means every renderer, every cache and the set state are equal and nobody waits |
| `VolumeSync.QuiescenceMeansAgreement` | lepl_cap.c:98-134 | that agreement, for every set size, every run from the start and although the counter wraps |
| `VolumeSync.WaitingIsNeverInVain` | lepl_vcs.c:62-167 | on every run a waiting member has a notification in flight or a write that will change it |
| `VolumeSync.CommandTakesEffect` | lepl_cap.c:71-88 | on every run, a user command ends on each connected member with nothing in flight in what the opcode makes of its renderer's own setting, announced if it changed |
| `VolumeTermination.WireComparisonIsExact` | gatt_profiles/ga_lib_vcs.c:130-133 | with fewer than 256 outstanding changes the wrapped counter comparison is the unwrapped one |
| `VolumeTermination.HeadIsAcceptedIffLive` | gatt_profiles/ga_lib_vcs.c:72-119 | a renderer accepts the next write if and only if it carries its current count |
| `VolumeTermination.DeliveryDecreases` | lepl_cap.c:98-134 | with at most two members connected, in a set of any size, every delivery lowers a lexicographic measure, from every reachable state |
| `VolumeTermination.PairComesToRest` | lepl_cap.c:98-134 | so every execution without new requests comes to rest, in agreement once a notification was processed |
| `VolumeTermination.LocalChangeSettlesAt` | lepl_cap.c:98-134 | a local change with at most one other member connected ends, in every execution, at the notifier's setting if mute was equal, else at its mute and the other member's volume; alone, at its own setting |
| `VolumeChase.ChaseGoesOn` | lepl_cap.c:98-134 | with three or more members, two of them on their way to rival volumes and one idle, a round of deliveries that serves everything in flight brings the same picture back with the roles rotated |
| `VolumeRest.ChaseIsReachable` | lepl_cap.c:98-134 | a run from the start gets into that picture, for every set of at least three connected members |
| `VolumeRest.ChaseNeverEnds` | lepl_cap.c:98-134 | so there is an infinite execution that never comes to rest although no write and no notification in flight is passed over forever |
| `VolumeRest.RestIffAtMostTwo` | lepl_cap.c:98-134 | every execution that passes over no message forever, from every reachable state with fewer than 256 outstanding changes, comes to rest if and only if at most two members are connected; for every size of the set |
| `QosNegotiation.SelectQosConfigParam` | lepl_cap.c:331-357 | the assignments in their order equal one narrowing of the shared configuration |
| `QosNegotiation.PreparedValues` | lepl_cap.c:255-275 | the values a direction starts from: 15 or 20 ms and one retransmission for games, 75 or 100 ms and five else, shorter at 7.5 ms; delays by direction; all else stays, and directions do not interfere |
| `AseControl.TableByOperation` | gatt_profiles/ga_lib_bap.c:733-841 | the endpoint table by operation: from where each is allowed, and where it leads |
| `QosNegotiation.SelectedDelayIsClamped` | lepl_cap.c:331-357 | the delay sent to an endpoint is the shared one clamped to that endpoint's own window |
| `QosNegotiation.FoldedClosedForm` | lepl_cap.c:331-357 | after any reports: latency max(5, least), retransmissions min(10, greatest), PHY of the last report |
| `QosNegotiation.FoldedDelay` | lepl_cap.c:331-357 | if the windows share a point the final delay is the initial one clamped to their intersection |
| `QosNegotiation.OrderIsIrrelevantIffWindowsMeet` | lepl_cap.c:331-357 | the delay is independent of the order of reports if and only if the windows share a point |
| `QosNegotiation.LatencyAndRetransmissionsIgnoreOrder` | lepl_cap.c:331-357 | latency and retransmissions never depend on the order |
| `QosNegotiation.DirectionsDoNotInterfere` | lepl_cap.c:331-357 | interleaved reports narrow each direction by its own reports only and never touch what the user asked for |
| `QosNegotiation.NegotiatedLatencyIsAccepted` | gatt_profiles/ga_lib_ascs.c:566-573 | every latency a negotiation arrives at lies in the range a server accepts |
| `AudioPlayer.Player.AssignAseToBeConfigured` | lepl_cap.c:477-488 | the first free slot is taken; a full list stays as it is |
| `AudioPlayer.Player.ConfigureAndEnable` | lepl_cap.c:493-575 | Config Codec is written for and a slot given to every pick, in order |
| `AudioPlayer.Player.ReleaseConfiguredAses` | lepl_cap.c:744-761 | Release is written for every listed endpoint and for no other |
| `AudioPlayer.Player.IfAseStateChanged` | lepl_cap.c:816-834 | true if and only if every listed endpoint reported the state |
| `AudioPlayer.Player.Handle` | lepl_rpc.c:1004-1121 | whatever event arrives, in whatever state: the fields end as the handler's function says, the mode invariants are kept, media goes on playing exactly in media mode if and only if the event is not one of two disturbing requests, and the paused mode stays ranked if and only if the event does not start below it |
| `AudioPlayer.Player.CleanupAses` | lepl_cap.c:461-475 | exactly the endpoints of the lost connection leave the list |
| `AudioModeRuns.ReportKeepsShape` | lepl_cap.c:836-878 | any endpoint report, true or false, keeps the mode invariants |
| `AudioModeRuns.SettlesIff` | lepl_cap.c:1032-1084 | a player in transit settles if and only if all listed endpoints are Enabling, or Streaming with no ring, or released with nothing paused; it settles where it was going |
| `AudioModeRuns.EventKeepsShape` | lepl_cap.c:947-982 | every event keeps the mode invariants; it keeps "media plays if and only if the effective mode is media" if and only if it is not one of two disturbing requests |
| `AudioModeRuns.ModesOnEveryRun` | lepl_cap.c:947-1084 | the same on whole runs of any events at any time |
| `AudioModeRuns.ModesFromStart` | lepl_rpc.c:130-163 | from the start: paused and final mode are real modes, nothing is paused behind a broadcast, groups never exceed mode changes, and on undisturbed runs media state matches the mode |
| `AudioModeRuns.PlayingWithoutMode` | lepl_rpc.c:328-424 | a disturbed run from the start on which media plays in no mode |
| `AudioModeRanks.EventRanksIff` | lepl_cap.c:947-982 | any request or report, in any state, keeps the paused mode no higher than the one that follows, if and only if it is not a start of a lower mode from no mode |
| `AudioModeRanks.RunRanksIff` | lepl_cap.c:947-982 | on whole runs of any events every state is so ranked if and only if no event starts below |
| `AudioModeRanks.OutrankedFromStart` | lepl_rpc.c:203-257 | a run from the start on which media is started with the microphone paused |
| `AudioModeMedia.StartIsAcceptedIff` | lepl_rpc.c:130-163 | a start request is accepted, in any state a run can reach, if and only if nothing runs or what runs is no broadcast and ranks no higher; refused, it changes nothing |
| `AudioModeMedia.EvictionIff` | lepl_cap.c:952-960 | of all events at any time exactly an accepted start request in a settled mode with media paused behind it makes an active media service inactive |
| `AudioModeMedia.EvictionPushesOut` | lepl_cap.c:952-960 | such a request makes the service inactive, and leaves nothing of the media behind if and only if it was not media itself that it pre-empted |
| `AudioModeMedia.EventRevivesIff` | lepl_mcs.c:114-140 | of all events exactly a play by the user from no mode and the loss of the set bring pushed-out media back |
| `AudioModeMedia.PushedOutMediaStaysSilent` | lepl_mcs.c:114-140 | on every run after that, every remote play and remote pause changes nothing until then |
| `AudioModeMedia.RemotePlayIff` | lepl_mcs.c:114-127 | a remote play starts media, with the paused configuration, if and only if the player is in no mode and the service is active; else nothing changes |
| `AudioModeMedia.PausedMediaCanBePlayed` | lepl_mcs.c:114-127 | on every run on which media is never pushed out, a remote play starts it whenever the player is in no mode |
| `AudioModeRequests.StopIsAcceptedIff` | lepl_rpc.c:259-280 | a stop by the user is accepted if and only if the player is in that mode or on the way there; it then heads for no mode with no stream of its own |
| `AudioModeRequests.RemotePauseIsAcceptedIff` | lepl_mcs.c:128-140 | a remote pause is a pause if the service is active and media is the mode; else nothing |
| `AudioModeRequests.DisconnectStopsStreams` | lepl_rpc.c:165-193 | a disconnect ends any stream and no broadcast |
| `AudioModeRequests.CallEndEndsTheRing` | lepl_tbs.c:762-826 | a call end ends the ring and heads for no mode; a call that rings without in-band ringtone goes straight back to what was paused; the user ends it in call mode only |
| `AudioModeRequests.BroadcastFollowsItsOwnState` | lepl_rpc.c:381-424 | a broadcast starts in no mode only and stops exactly if one is up |
| `AudioModeRequests.OnlyStreamsStartAndStop` | lepl_cap.c:713-814 | nothing is started or stopped for a prohibited or unspecified context; else every pick is configured and every listing released |
| `AudioModeRequests.WhoPreemptsWhom` | lepl_rpc.c:130-163 | which request is accepted in which mode, one by one |
| `AudioModeWrites.ConfigsAreWritten` | lepl_cap.c:493-575 | Config Codec is queued for an endpoint exactly as often as it is picked |
| `AudioModeWrites.ReconnectionJoins` | lepl_cap.c:880-921 | a member that comes back joins the stream of a settled mode, configured and prepared; else nothing changes |
| `AudioModeWrites.ReleasesAreWritten` | lepl_cap.c:744-761 | Release is queued once for each slot that lists the endpoint |
| `AudioModeWrites.ErrorReleasesAll` | lepl_cap.c:923-943 | an error response releases every listed endpoint in or on the way to a stream mode, unless media was paused already, then forgets the list |
| `AudioModeWrites.LostMembersLeaveTheList` | lepl_cap.c:461-475 | an endpoint stays listed if and only if its connection was not lost |
| `AudioModeWrites.AnswersMoveOn` | lepl_cap.c:836-878 | a report is answered with at most one operation, one that the endpoint's table allows there and that takes it further; nothing is written for others |
| `AudioModeNegotiation.ReportNarrows` | lepl_cap.c:836-878 | while nothing is being released, exactly a Codec Configured report narrows the player's stream, in the endpoint's direction, by its preferences |
| `AudioModeNegotiation.ReportIsMet` | lepl_cap.c:331-357 | after it the delay lies in the endpoint's window, the latency in its bounds, retransmissions are at most 10, and the other direction is as it was |
| `AudioModeNegotiation.ReportsNarrow` | lepl_cap.c:836-878 | on every run of reports the player's stream is the first one narrowed by all preferences reported |
| `AudioModeNegotiation.PlayerHoldsWhatWasAgreed` | lepl_cap.c:331-357 | so it has the closed form: least latency, most retransmissions, last PHY, and the clamped delay if the windows share a point |
| `AudioModeNegotiation.PreparedIffPicked` | lepl_cap.c:493-575 | a direction is prepared if and only if an endpoint of it is picked |
| `AudioModeNegotiation.ReleaseRestarts` | lepl_cap.c:1040-1067 | a release with a mode to follow starts that mode's stream afresh: the configuration asked for or paused, in the mode's context, prepared for every pick |
| `AudioModeNegotiation.AcceptedCallConverses` | lepl_tbs.c:203-218 | an accepted call ends the ring and, unless it rang in-band, turns the stream into a conversation prepared for every pick |
| `Orchestration.NoRejection` | gatt_profiles/ga_lib_bap.c:732-841 | in every state of the invariant the next operation of every endpoint is one its transition table allows |
| `Orchestration.OperationKeepsInv` | gatt_profiles/ga_lib_bap.c:732-841 | delivering an operation keeps the joint invariant of player, endpoints and channels |
| `Orchestration.LastReportInSetup` | lepl_cap.c:1068-1083 | the report that makes all listed endpoints Enabling settles the mode |
| `Orchestration.EarlyReportInSetup` | lepl_cap.c:836-878 | any other report during set-up only moves its own endpoint on |
| `Orchestration.ReleaseCompletes` | lepl_cap.c:1040-1067 | after the last report of a release the player is at rest, in a sound new set-up, or waits for the answer to a call that rings without a stream; which one is known beforehand |
| `Orchestration.DeliveryKeepsInv` | lepl_cap.c:836-878 | every delivery and every step of the environment keeps the joint invariant, in any interleaving |
| `OrchestrationRequests.AcceptedJoins` | lepl_tbs.c:203-218 | a call accepted over fresh endpoints while a stream runs adds them to the list; the invariant goes on to hold while they join |
| `OrchestrationRequests.AcceptWhileRinging` | lepl_tbs.c:203-218 | a call that rings without a stream and is accepted is set up, or forgotten if the player itself supports an in-band ringtone |
| `OrchestrationRequests.RequestKeepsInv` | lepl_rpc.c:130-163 | every start, stop, pre-emption, incoming call, answer and end of a call that meets the discipline keeps the joint invariant |
| `OrchestrationRuns.NothingIsEverRejected` | lepl_cap.c:836-878 | on every disciplined run, of streams and calls, for any number of endpoints, no Config Codec, Config QoS, Enable or Release is rejected |
| `OrchestrationRuns.PausedNeverOutranks` | lepl_cap.c:947-982 | on every disciplined run, calls included, a paused mode ranks no higher than the effective mode |
| `OrchestrationRuns.DeliveryDecreases` | lepl_cap.c:836-878 | every delivery lowers the summed distance of the endpoints to rest |
| `OrchestrationRuns.DeliveriesAreBounded` | lepl_cap.c:836-878 | so a system left alone makes a bounded number of deliveries |
| `OrchestrationOutcome.DeliveryKeepsDestination` | lepl_cap.c:1032-1084 | no delivery changes the destination (mode, user configuration, what is paused, whether it only rings there), and groups created plus groups owed is constant |
| `OrchestrationOutcome.GroupIsCreatedWhenAllAreEnabling` | lepl_cap.c:1068-1070 | a group is created by exactly the step that ends a set-up; then all listed endpoints are Enabling on both sides and nothing is being released |
| `OrchestrationOutcome.DeliveryKeepsFinish` | lepl_cap.c:816-834 | whether there is a way to the destination is decided when a journey begins |
| `OrchestrationOutcome.ComesToRest` | lepl_cap.c:1032-1084 | at rest the player has arrived at its destination with exactly the groups owed, if and only if there was a way: no release over endpoints that end in different states, no set-up in no mode, no transit that nothing leads out of; else it is stuck there |
| `OrchestrationJourneys.StartArrives` | lepl_cap.c:713-742 | a start of a stream or a call arrives in the requested mode with the requested configuration and one new group, within 8 deliveries an endpoint; a call without an in-band ringtone rings; only media that plays already is stuck |
| `OrchestrationJourneys.StopArrives` | lepl_cap.c:791-814 | a stop, a call end of either side or a disconnect ends in no mode with an empty list and no release pending if and only if the listed endpoints agree on where a release leads; otherwise it is stuck |
| `OrchestrationJourneys.EndReturns` | lepl_tbs.c:762-826 | the end of what runs or rings, with a mode paused behind it, brings that mode back with the user's configuration and one more group; a call that cannot ring in-band rings anew or, behind another ring, is lost |
| `OrchestrationJourneys.LowerModesAreRefused` | lepl_rpc.c:130-163 | a start request or incoming call in a running mode is accepted if and only if it does not rank lower and is not media; refused, it changes nothing |
| `OrchestrationJourneys.PreemptionArrives` | lepl_cap.c:1051-1057 | a pre-emption, by a call too, arrives in the new mode, or rings, with the old mode and configuration kept behind it |
| `OrchestrationJourneys.PreemptionRoundTrip` | lepl_cap.c:947-1084 | pre-empt and end: the original mode is back with frequency, frame duration, SDU interval, octets and channel count unchanged, nothing paused; lost only for a call that cannot ring in-band behind another one |
| `OrchestrationJourneys.RestIsReached` | lepl_cap.c:1032-1084 | rest is reachable from every state of the invariant |
| `OrchestrationNegotiation.DeliveriesNarrow` | lepl_cap.c:836-878 | on the way up and once there, in any interleaving, the stream is the first one narrowed by all preferences delivered |
| `OrchestrationNegotiation.SettledIsAgreed` | lepl_cap.c:836-878 | when a mode settles every listed endpoint that owed its preferences has been heard, and each direction has the closed form over all that were heard, in each one's window if the windows share a point |
| `OrchestrationNegotiation.StartNegotiates` | lepl_cap.c:331-357 | from the request: the settled stream has the context of its mode, every pick has been heard, and each of their directions is what they have agreed on, out of the first values for that context |
| `OrchestrationCalls.AcceptIsRejectedIff` | lepl_tbs.c:203-218 | accepting a call while a stream runs, quiet or not, with endpoints joining or not, can lead to a rejected operation if and only if the call does not ring in-band and a picked endpoint is listed already |
| `OrchestrationCalls.AcceptCanBeRejected` | lepl_tbs.c:203-218 | and from every beginning with an endpoint and a slot a disciplined run leads to such a moment |
| `OrchestrationCalls.AcceptedCallStreams` | lepl_cap.c:836-878 | otherwise, in any live state, its endpoints join and come to stream in the mode and the group there are |
| `OrchestrationCalls.AcceptedRingArrivesIff` | lepl_tbs.c:203-218 | a silent ring that is accepted arrives in call mode with the configuration it rang with if and only if the player itself does not support an in-band ringtone; else no stream is ever started |
| `OrchestrationCalls.RemoteEndStrands` | lepl_tbs.c:762-826 | a call that the remote side ends in no mode leaves the player in transit for good |
| `OrchestrationCalls.AcceptStrands` | lepl_tbs.c:203-218 | a call accepted in no mode sets up its endpoints without a group and without a mode |
| `OrchestrationRace.RaceCanBeLost` | lepl_cap.c:1071-1083 | a stop before all Streaming reports can be overtaken: list empty, mode settled unless a call rings, release still pending |
| `OrchestrationRace.StopIsSafeIffAllStream` | lepl_cap.c:1071-1083 | a stop or pre-emption in a settled mode leaves no release behind, in any state it leads to, if and only if every listed endpoint had reported Streaming |
| `OrchestrationRace.EarlyStopCanBeRejected` | gatt_profiles/ga_lib_bap.c:732-841 | from every earlier stop or pre-emption that leaves no call ringing there is a run, with all requests in settled modes, on which an operation is rejected |
| `OrchestrationRace.EarlyMomentIsReached` | lepl_cap.c:1068-1083 | from every beginning with an endpoint and a slot a disciplined run leads to a settled mode in which not all listed endpoints stream yet |
| `OrchestrationRace.RejectedFromTheBeginning` | lepl_cap.c:1071-1083 | so from every such beginning there is a run with all requests in settled modes that ends in a rejected operation |
| `OrchestrationStops.StopIsOrderlyIff` | lepl_cap.c:1032-1084 | a stop or pre-emption in any live state, joining endpoints included, leaves every Release on its way to an endpoint on the list of a release the player is in transit for, whatever is delivered, if and only if all listed endpoints stream, or one cannot come to stream and neither Idle nor Codec Configured can be shown by all while a Release is undelivered |
| `OrchestrationStops.NoneJoiningStopsCleanlyIff` | lepl_cap.c:1071-1083 | with no endpoint joining that condition is that all stream |
| `OrchestrationStops.StopOnEveryRunIff` | lepl_cap.c:1032-1084 | so it is exact in every live state of every disciplined run |
| `OrchestrationWitnesses.EarlyEndIsReached` | lepl_cap.c:1040-1067 | from the beginning with two endpoints a disciplined run leads to a moment at which a stop can end a release too soon |
| `OrchestrationWitnesses.MixedIsReached` | lepl_cap.c:816-834 | from every beginning with two endpoints that end a release in different states a disciplined run has both streaming |
| `OrchestrationWitnesses.LostCallIsReached` | lepl_tbs.c:203-218 | from every beginning without an in-band ringtone on both sides a call rings, is accepted and gets no stream |
| `Bytes.LeThenValue` | gatt_profiles/ga_lib_bap.c:467-479 | a number that fits its width survives little-endian writing and reading |
| `CodecConfig.GetSamplingFreqIndex` | gatt_profiles/ga_lib_bap.c:389-405 | the search loop finds the first table place, or 0 |
| `CodecConfig.FrequencyIndexIsInverse` | gatt_profiles/ga_lib_bap.c:389-414 | index and frequency are inverse exactly on the table |
| `CodecConfig.UpdateLtv` | gatt_profiles/ga_lib_bap.c:467-479 | length, type and value are written if they fit, and otherwise nothing |
| `CodecConfig.FillCsc` | gatt_profiles/ga_lib_bap.c:534-600 | the bytes written are the length byte and the fields that fit; the rest of the buffer is untouched |
| `CodecConfig.Filled` | gatt_profiles/ga_lib_bap.c:534-600 | the length byte counts what follows it, and for every room from 1 up the writer stays within it |
| `CodecConfig.ParseCsc` | gatt_profiles/ga_lib_bap.c:416-465 | the parser loop computes the parser function |
| `CodecConfig.ParseStrictly` | gatt_profiles/ga_lib_ascs.c:387-498 | the control-point parser loop computes its parser function, eight-bit wrap-around included |
| `CodecConfig.FieldsAreParsed` | gatt_profiles/ga_lib_bap.c:416-465 | any list of fields in any order is applied whole if and only if every index in it is known; else it is an error |
| `CodecConfig.FieldsAreParsedStrictly` | gatt_profiles/ga_lib_ascs.c:417-498 | the other parser applies any list of fields and stops right behind it |
| `CodecConfig.ReducedIsWholeIfItFits` | gatt_profiles/ga_lib_bap.c:534-600 | nothing is left out of a buffer that is big enough for the fields that are set |
| `CodecConfig.TwentyBytesAreEnough` | gatt_profiles/ga_lib_bap.c:534-600 | and 20 bytes always are |
| `CodecConfig.FilledIsParsed` | gatt_profiles/ga_lib_bap.c:416-600 | for every room: what was written is laid over the target, if and only if frequency and duration written are tabulated |
| `CodecConfig.FilledIsParsedStrictly` | gatt_profiles/ga_lib_ascs.c:387-510 | the other parser stops at the writer's end and agrees with the first on everything tabulated |
| `CodecConfig.RoundTrip` | gatt_profiles/ga_lib_bap.c:416-600 | with room enough both parsers give back the configuration itself |
| `Layouts.AssignedCodes` | gatt_profiles/ga_lib_bap.c:373-415 | the thirteen frequency codes and the two duration codes, and that nothing else has one |
| `Layouts.CodesAscend` | gatt_profiles/ga_lib_bap.c:373-387 | codes ascend with the frequency and are read back |
| `Layouts.FieldOctets` | gatt_profiles/ga_lib_bap.c:467-479 | length, type 1 to 5 and little-endian value of each field |
| `Layouts.ConfigurationOctets` | gatt_profiles/ga_lib_bap.c:533-600 | the twenty octets of a whole configuration |
| `Layouts.MetadataOctets` | gatt_profiles/ga_lib_bap.c:660-712 | the octets of both contexts; the twelve defined bits |
| `Layouts.ConfigCodecOctets` | gatt_profiles/ga_lib_ascs.c:243-256 | the octets of a Config Codec command |
| `Layouts.ConfigQosOctets` | gatt_profiles/ga_lib_ascs.c:258-274 | the sixteen octets of a Config QoS command |
| `Layouts.BaseOctets` | gatt_profiles/le_audio_bap_broadcast.c:61-67 | length, service data, UUID 0x1851, delay, number of subgroups |
| `Layouts.SubgroupOctets` | gatt_profiles/le_audio_bap_broadcast.c:69-73 | the six octets before a subgroup's configuration |
| `Acceptance.StrictAcceptsOnlyFields` | gatt_profiles/ga_lib_ascs.c:417-498 | whatever the bytes, if the control-point parser accepts, fields stand there that add up to the count in eight bits, and it has applied them all |
| `Acceptance.StrictAcceptsIffFields` | gatt_profiles/ga_lib_ascs.c:417-498 | within 255 bytes it accepts if and only if a list of fields stands there |
| `Acceptance.FirstFaultIsAnswered` | gatt_profiles/ga_lib_ascs.c:417-498 | the answer to the first wrong field behind any right ones, which are applied by then |
| `Acceptance.LooseAcceptsOnlyFields` | gatt_profiles/ga_lib_bap.c:417-465 | the other parser succeeds only on fields with known indices whose length bytes add up |
| `Acceptance.LooseFieldsAreAccepted` | gatt_profiles/ga_lib_bap.c:417-465 | and on all of those, right length bytes or wrong |
| `Acceptance.UnknownIndexIsApplied` | gatt_profiles/ga_lib_bap.c:428-442 | at the first unknown index it stops with a 0 in the target |
| `Metadata.FillMetadata` | gatt_profiles/ga_lib_bap.c:659-689 | the bytes written are the length byte and the contexts that fit |
| `Metadata.GetMetadata` | gatt_profiles/ga_lib_bap.c:602-657 | the reading loop computes the reader function |
| `Metadata.FilledIsRead` | gatt_profiles/ga_lib_bap.c:602-689 | written contexts are read back over the target if and only if all of them are defined; else they are rejected |
| `Metadata.ListIsOverstepped` | gatt_profiles/ga_lib_bap.c:643-646 | the reader steps over a list of content-control ids and one octet more |
| `Metadata.ListIsReadRightIffLast` | gatt_profiles/ga_lib_bap.c:602-656 | a defined context with such a list is read right, in memory that ends there, if and only if the list stands behind it |
| `Metadata.FaultsOfTheFirstField` | gatt_profiles/ga_lib_bap.c:602-656 | what is kept and answered for a field that claims too much, is undefined, or has another type |
| `AscsCommands.BuildConfigCodec` | gatt_profiles/ga_lib_ascs.c:243-256 | the bytes of a Config Codec command |
| `AscsCommands.ParseConfigCodec` | gatt_profiles/ga_lib_ascs.c:387-510 | the parser computes its parser function |
| `AscsCommands.ConfigCodecRoundTrip` | gatt_profiles/ga_lib_ascs.c:243-510 | a Config Codec command parses back to its arguments, configuration laid over the old one, and is read to its end |
| `Acceptance.ConfigCodecIsTakenIffWhole` | gatt_profiles/ga_lib_ascs.c:387-510 | a Config Codec command is accepted if and only if the length it came with covers it |
| `AscsCommands.BuildConfigQos` | gatt_profiles/ga_lib_ascs.c:258-274 | the 16 bytes of a Config QoS command |
| `AscsCommands.ParseConfigQos` | gatt_profiles/ga_lib_ascs.c:512-576 | too short changes nothing; else the values are read and the first failing range check is reported |
| `AscsCommands.ConfigQosRoundTrip` | gatt_profiles/ga_lib_ascs.c:258-576 | a Config QoS command parses back to its arguments, three-byte values cut to three bytes, and is accepted if and only if what is left of them is in range |
| `AscsCommands.NegotiatedLatencyPasses` | gatt_profiles/ga_lib_ascs.c:566-573 | no negotiated latency trips the server's range check |
| `AscsCommands.BuildMetadata` | gatt_profiles/ga_lib_ascs.c:276-305 | the bytes of an Enable or Update Metadata command |
| `AscsCommands.ParseMetadata` | gatt_profiles/ga_lib_ascs.c:578-601 | the parser computes its parser function; rejected contexts go unreported |
| `AscsCommands.MetadataRoundTrip` | gatt_profiles/ga_lib_ascs.c:276-601 | an Enable or Update Metadata command parses back to its contexts |
| `Acceptance.MetadataIsTakenIffWhole` | gatt_profiles/ga_lib_ascs.c:578-601 | an Enable or Update Metadata command is taken if and only if the length it came with covers it |
| `AscsCommands.FillCodecParams` | gatt_profiles/ga_lib_ascs.c:97-118 | the bytes of a Codec Configured value |
| `AscsCommands.ReadCodecConfigured` | lepl_ascs.c:298-325 | the client reads the value field by field |
| `AscsCommands.CodecConfiguredRoundTrip` | lepl_ascs.c:298-325 | a filled Codec Configured value is read back, delays cut to three bytes |
| `Broadcast.BuildBaseData` | gatt_profiles/le_audio_bap_broadcast.c:51-97 | the nested loops write the BASE and nothing else, whether it fits or not; count and length byte are kept in eight bits, and the eight-bit count is what is compared with the room; the first byte written is one less than the size of a BASE that fits |
| `Broadcast.LengthByteCountsWhatFollows` | gatt_profiles/le_audio_bap_broadcast.c:93-94 | the length byte counts what follows it, in eight bits, and no other byte does |
| `Broadcast.OverrunIsRefused` | gatt_profiles/le_audio_bap_broadcast.c:84-91 | too much for the room is refused as long as eight bits can count it; a room of 255 bytes or more refuses nothing |
| `Broadcast.WrittenIfItFits` | gatt_profiles/le_audio_bap_broadcast.c:82-96 | a BASE that fits is written whole and never refused |
| `Broadcast.BuiltRightIffItFits` | gatt_profiles/le_audio_bap_broadcast.c:82-96 | nothing is refused, all of it is in the buffer and its size is reported, if and only if the BASE fits in the buffer and in 255 bytes |
| `Broadcast.OverrunGoesUnnoticed` | gatt_profiles/le_audio_bap_broadcast.c:82-96 | 266 bytes go into a buffer of 252, are not refused, and are reported as 10 |
| `Broadcast.SubgroupsFit` | gatt_profiles/le_audio_bap_broadcast.c:65-80 | whatever fits takes exactly the size of what is set |
| `BroadcastParser.ParseBaseInfo` | gatt_profiles/le_audio_bap_broadcast.c:237-305 | the parser computes its parser function |
| `BroadcastParser.ParseSubgroups` | gatt_profiles/le_audio_bap_broadcast.c:254-302 | so does the loop over subgroups |
| `BroadcastParser.ParseBises` | gatt_profiles/le_audio_bap_broadcast.c:281-301 | so does the loop over BISes |
| `BroadcastParser.BaseParsed` | gatt_profiles/le_audio_bap_broadcast.c:237-305 | on every input position plus running length is constant: the running length is two above the true remainder, wraps only below four bytes and never goes below zero after the header |
| `BroadcastParser.BaseRoundTrip` | gatt_profiles/le_audio_bap_broadcast.c:51-305 | for any subgroups and BISes that fit, building and then parsing by the length byte that was written gives the BASE back with every BIS resolved against its subgroup, ending two above zero |
| `BroadcastParser.BuiltBaseIsParsed` | gatt_profiles/le_audio_bap_broadcast.c:51-305 | so does parsing the buffer as the builder leaves it |
| `BroadcastParser.UnsetContextsStay` | gatt_profiles/le_audio_bap_broadcast.c:51-305 | contexts that the announcement does not set stay as the target held them |
| `BroadcastParser.BuildThenParseIsIdempotent` | gatt_profiles/le_audio_bap_broadcast.c:51-305 | a second pass of building and parsing gives the same BASE again |
| `PresetList.Presets.SearchIndex` | lepl_has.c:13-29 | the place of an index, or -1; nothing has index 0 |
| `PresetList.Presets.PredictPosition` | lepl_has.c:31-42 | the first slot that is free or not smaller, or -1 |
| `PresetList.Presets.Delete` | lepl_has.c:45-65 | records behind the range move up and the tail is emptied |
| `PresetList.Presets.Add` | lepl_has.c:68-115 | overwrite, clear, delete-and-overwrite or shift, each as a change of the whole array |
| `PresetList.Presets.HandleReadResponse` | lepl_has.c:190-200 | a read response on the array |
| `PresetList.Presets.HandleGenericUpdate` | lepl_has.c:258-273 | a generic update on the array |
| `PresetList.Presets.HandleDeletion` | lepl_has.c:275-282 | a deletion on the array |
| `PresetList.Presets.HandleAvailability` | lepl_has.c:283-306 | availability sets or clears bit 1 of one record |
| `PresetList.AvailabilityIsExact` | lepl_has.c:283-306 | an availability message makes bit 1 of the first record with the index say what it says, and changes nothing else; the last one decides |
| `PresetHistory.ReadKeepsSmallest` | lepl_has.c:31-200 | one read response refines an update of the bounded sorted map |
| `PresetHistory.ReadOverwrites` | lepl_has.c:190-200 | in any array a read response overwrites the first record with its index |
| `PresetHistory.ReadsHoldSmallest` | lepl_has.c:31-200 | after any read responses with indices from 1 up the array holds the smallest indices ever seen, ascending, as many as fit, each with its latest record, empty behind |
| `PresetHistory.LatestIsLast` | lepl_has.c:190-200 | the latest record of an index is the last one received with it |
| `PresetHistory.SmallestIsUnique` | lepl_has.c:31-115 | only one array holds them, so the contents are fully determined |
| `PresetHistory.UpdateForm` | lepl_has.c:68-115 | the exact result of a generic update: what stays in front, the record, and what is kept behind it in each case |
| `PresetHistory.HigherRecordIsLost` | lepl_has.c:99-110 | a record with a higher index is lost although a slot stays free, if and only if the update skips smaller records to get to it |
| `PresetHistory.PrecedingRecordIsLost` | lepl_has.c:258-273 | the record that the new one is said to follow survives if and only if it is the same one |
| `PresetHistory.UpdateIsAsAskedIff` | lepl_has.c:258-273 | exactly when an update leaves the record, nothing between it and the one it follows, and everything else |
| `PresetHistory.UpdateThatLosesTwo` | lepl_has.c:68-115 | presets 1, 3 and 5 are read, then 4 is said to follow 1: 1 and 5 go along with 3, in an array of any size |
| `PresetHistory.DeletionForm` | lepl_has.c:45-65 | a deletion removes exactly its index and keeps the others in order |
| `PresetHistory.EventKeepsTidy` | lepl_has.c:202-320 | every sensible notification keeps the array strictly ascending with an empty tail |
| `PresetHistory.RunKeepsTidy` | lepl_has.c:202-320 | so does every run of them |
| `PresetHistory.ReadKeepsTidyIff` | lepl_has.c:190-200 | a read response keeps the order if and only if its index is not 0 or it changes nothing |
| `CallTable.Calls.GetCallState` | lepl_tbs.c:133-146 | the first slot in use with the id, or none |
| `CallTable.Calls.Accept` | lepl_tbs.c:160-201 | an accepted call becomes active and every other one is held; refusals change nothing |
| `CallTable.Calls.Hold` | lepl_tbs.c:221-255 | local hold of one call |
| `CallTable.Calls.Retrieve` | lepl_tbs.c:257-320 | a retrieved call leaves the local hold and every other one is held |
| `CallTable.Calls.RemotelyHold` | lepl_tbs.c:492-519 | remote hold of one call |
| `CallTable.Calls.RetrieveRemotelyHeld` | lepl_tbs.c:322-359 | the remote side retrieves a call; active others are held |
| `CallTable.Calls.Place` | lepl_tbs.c:361-418 | the first free slot is used under the next id |
| `CallTable.Calls.SetIncoming` | lepl_tbs.c:521-577 | an incoming call, with the branch that gives the id back |
| `CallTable.Calls.Terminate` | lepl_tbs.c:762-786 | the slot is freed and the count goes down |
| `CallTable.Calls.Join` | lepl_tbs.c:420-489 | validity checks, hold of unlisted calls, end of hold of listed ones |
| `CallTableRuns.NearIdsDiffer` | lepl_tbs.c:28-33 | calls fewer than 255 allocations apart have different ids |
| `CallTableRuns.SameIdIff` | lepl_tbs.c:28-33 | two calls have the same id if and only if they are a multiple of 255 allocations apart |
| `CallTableRuns.StepKept` | lepl_tbs.c:521-577 | every operation keeps the books: count of calls, id of the last allocation, id of every call |
| `CallTableRuns.CountAndIdsOnEveryRun` | lepl_tbs.c:521-577 | on every run the count is that of slots in use, after k allocations the id is ((k-1) mod 255)+1, and no id is 0 |
| `CallTableRuns.RollBackIsUnreachable` | lepl_tbs.c:539-544 | the branch that gives an id back is never reached |
| `CallTableRuns.JoinSeesNoZero` | lepl_tbs.c:468-471 | the branch for id 0 in a join is never reached |
| `CallTableRuns.ActivationIsExclusiveIff` | lepl_tbs.c:180-201 | an activation leaves one active call if and only if no other active call has the same id |
| `CallTableRuns.StepKeepsOneActive` | lepl_tbs.c:160-418 | with distinct ids every operation but join keeps at most one call active |
| `CallTableRuns.AtMostOneActive` | lepl_tbs.c:160-519 | on every join-free run with live calls fewer than 255 allocations apart at most one call in use is active |
| `CallTableRuns.TwoActiveWithoutWindow` | lepl_tbs.c:28-33 | a run from the start, one call outliving 255 allocations, that ends with two active calls |
| `CallTableRuns.JoinedAreListed` | lepl_tbs.c:449-489 | after a successful join every active call is in the list |
| `CallTableRuns.JoinSucceeds` | lepl_tbs.c:420-489 | a join of calls in use, none incoming, succeeds and takes every listed call off local hold |
| `CallTableRuns.JoinSucceedsIff` | lepl_tbs.c:420-489 | a join succeeds if and only if it lists at least two ids, each of a call in use that is not incoming; refused, it changes nothing |
| `CallTableRuns.PlacingHoldsNothing` | lepl_tbs.c:403-416 | placing a call leaves every call in use as it was |
| `CallHolds.HoldHoldsHere` | lepl_tbs.c:221-255 | a successful hold sets this end's hold and keeps the remote one; it succeeds if and only if the call rings or is answered and not held here |
| `CallHolds.RetrieveReleasesHere` | lepl_tbs.c:257-320 | a successful retrieval clears this end's hold and keeps the remote one, and the others yield; it succeeds if and only if the call is held here |
| `CallHolds.RemoteHoldHoldsThere` | lepl_tbs.c:492-519 | a remote hold sets the remote hold, and keeps this end's if and only if the call was not held on both sides |
| `CallHolds.RemoteRetrieveReleasesThere` | lepl_tbs.c:322-359 | a remote retrieval clears the remote hold and keeps this end's |
| `CallHolds.AcceptHoldsTheOthers` | lepl_tbs.c:160-219 | an accepted call is active and every other active or remotely held call is held here |
| `CallHolds.RetrieveUndoesHoldIff` | lepl_tbs.c:221-320 | retrieve after hold makes the call what it was; it leaves the whole table as it was if and only if no other call is active or remotely held |
| `CallHolds.RemoteRetrieveUndoesHoldIff` | lepl_tbs.c:322-519 | the same for the remote end, unless the call was held there or on both sides |
| `CallHolds.HoldsCommute` | lepl_tbs.c:221-519 | both ends may hold an active call in either order |
| `CallHolds.SecondRemoteHoldLosesOurs` | lepl_tbs.c:492-519 | a second remote hold of a call held on both sides makes it impossible for this end to retrieve |
| `CallHolds.PlacedDials` | lepl_tbs.c:361-418 | a placed call dials in the first free slot under the next id; when and why none is placed |
| `CallHolds.TerminatedIsGone` | lepl_tbs.c:762-800 | after a termination the slot is free and no call has the id unless another had it |
| `CallHolds.JoinKeepsThere` | lepl_tbs.c:420-489 | a join leaves what the remote end holds |
| `CallHolds.RemoteHoldIsTheRemoteEnds` | lepl_tbs.c:160-519 | on every run, whatever else happens, an answered call that is not terminated is held by the remote end if and only if that is the remote end's last word on it |
| `CccdStore.Store.GetIndex` | lepl_gatt.c:1254-1267 | the first table entry with the handle, or -1 |
| `CccdStore.Store.Get` | lepl_gatt.c:1269-1289 | the two bits of the entry; 0 for an unknown handle |
| `CccdStore.Store.Set` | lepl_gatt.c:1291-1318 | the entry is written; an unknown handle changes nothing |
| `CccdStore.WordsSuffice` | lepl_nvram.h:14-15 | for any number of descriptors every word index is below the declared count, and the last word is needed |
| `CccdStore.EntryAfterWrite` | lepl_gatt.c:1291-1318 | a write is an update of one element of an array of two-bit values |
| `CccdStore.ReadAfterSet` | lepl_gatt.c:1269-1318 | what every later read by either handle gives |
| `CccdStore.SetThenGetByValueHandle` | lepl_gatt.c:1254-1318 | set by descriptor handle, get by value handle: the low two bits of the value |

## Left out

- GATT database, discovery, advertising, scanning, timers, RPC and UART transport, HCI vendor commands: plumbing over libraries that are not part of this model.
- lepl_cis.c, lepl_isoc_offload.c, lepl_bis.c: "CIS established", "endpoint released" and the creation of a group are steps; data paths and Receiver Start Ready are not modelled, Receiver Stop Ready is written in answer to Disabling, which the joint system never reaches.
- The choice of endpoints from PACS records, CSIS rank and channel allocation: a start receives the picks as a parameter. All listed endpoints belong to the set that is stopped.
- AICS gain and MICS mute synchronisation: they have no check against the cached state, and gain is always pushed by increments.
- Broadcasts, set disconnections, reconnections and error responses in the joint system of player and endpoints: `Orchestration` runs media, microphone, conversation and calls; the `AudioMode` modules cover every event, but the player alone.
- The parameters of Config QoS and Enable in flight between player and endpoints: an operation is its opcode there; the values are those of the player's stream at that moment (`AudioModeNegotiation.ReportNarrows`).
- Placing a call: it starts no stream in the code, and is in `CallTable` only.
- Reads of the volume state that race with notifications when a member joins; the control-point payload encoding of volume writes.
- Metadata of CCID-list, program-info, vendor and upper-layer type on the writing side: only preferred and streaming contexts are written.
- fill_common_params and the client's parsing of QoS Configured values: the first accumulates its byte count, the second depends on a macro that is not part of this model.
- The upper byte of a 32-bit delay in a target that was not cleared before parsing: targets are taken as zero there.
- BASS, PBP advertisements, SIRK, NVRAM copying, CSIS membership, hands-free speaker and transcoding code, LC3plus frame durations.
- The eight-bit width of the number of calls: it is an integer here, and `CallTableRuns.CountAndIdsOnEveryRun` keeps it at the number of slots in use.
- Friendly names, URIs and flags of calls; call-control notifications; the mode side of call control is in `AudioMode`.
- The text of preset records beyond carrying it along: a record arrives with its name already cut to 40 bytes.
- AscsCommands.ParseConfigCodec: reads eight bytes of arguments without looking at the length first, as the code does, so the model asks for memory that holds them.
- Broadcast.BuildBaseData: needs memory that holds what is written, behind the buffer too; what the code overwrites there is not part of this model.
- PresetHistory.RunKeepsTidy: claims order on whole runs; which records one generic update leaves is said by `PresetHistory.UpdateIsAsAskedIff`.
- OrchestrationRace.StopIsSafeIffAllStream: for moments at which no accepted call is adding endpoints to the stream; `OrchestrationStops.StopIsOrderlyIff` is about all of them.
- OrchestrationRace.EarlyStopCanBeRejected: a stop that leaves a call ringing leaves the player in transit, so that no later request counts as one in a settled mode.
