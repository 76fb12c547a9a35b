# Verified model of the Vistoda Blink bridge

Dafny models of the stateful parts of the bridge, with proofs of what they guarantee over whole runs. `dafny verify
dfyconfig.toml` checks the project.

| files | what they model |
|---|---|
| `AudioLease`, `AudioUplink`, `AudioTransport`, `AudioOutcomes`, `Microphone` | microphone ownership by generation and epoch, the single TLS writer that turns it into START, STOP, SAVE, DISCARD and AAC, and the dating of AAC frames by the PCM they hold |
| `ImmiFraming`, `AdtsFraming` | the incremental decoders and the AAC packet writer (ADTS header: ISO/IEC 14496-3, section 1.A.2.2) |
| `RecordingSpool`, `RecordingManager`, `RecordingOutcomes` | recordings, their journal, eviction and crash recovery |
| `OAuthSession`, `OAuthRequests`, `OAuthDisk`, `OAuthClient` | refresh rotation (RFC 6749, section 6), how often tokens are requested, and the credential file against memory |
| `SettingsRestore`, `PlanRules`, `SettingsEngine`, `SettingsBackup`, `SettingsFaults`, `SettingsView` | the Python side: restore order, what the engine validates and stores, verification and rollback of settings backups under faults; that this engine is the one below |
| `CameraSettings`, `SettingsTable`, `SettingsClient`, `SettingsOutcome`, `SettingsNetwork` | reading, encoding and writing Blink camera settings, and what a call leaves behind on an unreliable network |
| `MotionTracker`, `MotionFeed` | motion caches and the motion long-poll |
| `ZoneMasks`, `AliasStore`, `AliasRaces` | privacy zones over motion masks, stable camera aliases, one refresh at a time and several |
| `Wrappers` | `Option`, `Result`, bytes and big-endian words |

Concurrent parts are state machines whose steps are the pieces of code between two awaits (and, where it matters,
between two locks); a statement about every run of steps is a statement about every interleaving. Objects the source
changes in place are classes whose methods are proved to take those steps.

Eight properties that the design suggests turned out to be false of the code. Each has a run or input that shows it and
an exact condition:

- START and STOP alternate only if no other thread re-claims the microphone between the two readings of one
  reconciliation: `AudioUplink.StartCanFollowStart`; `AudioUplink.SessionAlternatesIff`.
- One token request does not serve all callers until shortly before the access token expires if Blink refuses that token
  earlier: `OAuthRequests.RefusedTokenIsReplaced`; `OAuthRequests.RequestAgainIff`.
- The credential file can silently disagree with memory after an enrolment torn between the two, after a request that is
  dropped between changing the stored identity and saving it, when a retry fires inside an import, or after an import
  that is dropped while it is tried: `OAuthDisk.TornEnrolmentLosesTheFile`, `OAuthDisk.DroppedIdentityLosesTheFile`,
  `OAuthDisk.RefusedImportLosesTheFile`, `OAuthDisk.DroppedImportLosesTheFile`; `OAuthDisk.StepKeepsDiskIff` without
  imports, `OAuthDisk.ImportEndsIff` for every ending of an import.
- Changing one setting can fail and leave it changed: `SettingsNetwork.SensitivityChanges`,
  `SettingsOutcome.LateWriteStrands`; `SettingsNetwork.OutcomeIff` on every network.
- A threshold write that comes late cannot always be undone by writing the old entry back:
  `CameraSettings.TextThresholdStays`; `CameraSettings.WritingBackIff`.
- A camera that was changed by a restore cannot always be taken back, because the snapshot cannot be planned or an old
  value is itself invalid: `SettingsEngine.AlertsBlockTheWayBack`, `SettingsEngine.OddClipLengthStays`;
  `SettingsEngine.RollbackPlannedIff`, `SettingsEngine.RollbackRestoresIff`.
- A restore that does not succeed can leave cameras changed: when the reply to a write is lost, when the body of a reply
  is cut, because that exception is not handled and nothing is rolled back, when this happens inside a rollback, or when
  it happens to the last read of the state: `SettingsFaults.LostReplyStaysChanged`,
  `SettingsFaults.CutReplyLeavesEarlierChanged`, `SettingsFaults.BrokenReturnAbandonsTheRest`,
  `SettingsFaults.CutRefreshReportsFailure`; `SettingsFaults.OneFaultIff`, `SettingsBackup.ApplyUndoneIff`,
  `SettingsBackup.SuccessMatches`.
- Two refreshes at once can lose a remembered alias: `AliasRaces.TwoAtOnceLoseAnAlias`; `AliasRaces.NeverLosesIff`.

Assumptions: the provider grants a refresh token, and with it an access token, that it never granted before; digests and
revisions are injective, so they are represented by what they digest; clocks do not run back; at start-up the session,
if any, is the one on disk.

## Model

| member | source | states |
|---|---|---|
| `AudioUplink.ConnectionIsSafe` | addon/vistoda_blink_engine/src/live_audio_uplink.rs:42-135 | For every script of interference, at every await and, if preemptive, before every lock: completed and torn writes of a connection are safe (each AAC inside the START of its own epoch, epochs numbered from 0, SAVE/DISCARD only on change, unknown policy silent); with others running only at awaits, START and STOP alternate and no AAC write begins after its frame was revoked |
| `AudioUplink.AudioIsBracketed` | addon/vistoda_blink_engine/src/live_audio_uplink.rs:105-135 | In a safe log of a multi-client connection every AAC write lies after a START of its own epoch with no STOP or other START between, under full preemption |
| `AudioUplink.AlternatesMeansEvenOdd` | addon/vistoda_blink_engine/src/live_audio_uplink.rs:42-87 | Alternation means: of the control writes, the even ones are START and the odd ones STOP |
| `AudioUplink.OpenStartMeansBracket` | addon/vistoda_blink_engine/src/live_audio_uplink.rs:58-80 | If an epoch is the open START, its START is in the log and no control write follows it |
| `AudioUplink.NumbersCountUp` | addon/vistoda_blink_engine/src/live_audio_uplink.rs:105-135 | The AAC packets of one epoch are numbered 0, 1, 2, ... modulo 2^32 |
| `AudioUplink.PolicyLimitsWrites` | addon/vistoda_blink_engine/src/live_audio_uplink.rs:42-82 | Unknown policy: neither control nor AAC. Legacy policy: no control |
| `AudioUplink.SettleAlternatesIff` | addon/vistoda_blink_engine/src/live_audio_uplink.rs:58-80 | From the first reading of the desire, the writes alternate iff ownership was not re-claimed between the two readings |
| `AudioUplink.ReconcileAlternatesIff` | addon/vistoda_blink_engine/src/live_audio_uplink.rs:42-82 | One reconciliation breaks START/STOP alternation iff another thread released and re-claimed the microphone between the two readings |
| `AudioUplink.SessionAlternatesIff` | addon/vistoda_blink_engine/src/live_audio_uplink.rs:42-115 | Over a whole connection under full preemption, START and STOP alternate iff in none of its reconciliations, those made for frames included, the microphone was re-claimed between the two readings |
| `AudioUplink.NeverReclaimedAtAwaits` | addon/vistoda_blink_engine/src/live_audio_uplink.rs:42-115 | With others running only at awaits, no reconciliation of any session is ever re-claimed between its readings |
| `AudioUplink.StartCanFollowStart` | addon/vistoda_blink_engine/src/live_audio_uplink.rs:58-80 | A concrete preemptive run from the initial state whose log holds START directly after START |
| `AudioUplink.UndisturbedReconcile` | addon/vistoda_blink_engine/src/live_audio_uplink.rs:42-82 | With nobody interfering, reconcile writes exactly the recording request and control writes that are due, and leaves nothing due; `AudioOutcomes.ReconcileWrites` says in bytes what is due |
| `AudioOutcomes.ReconcileWrites` | addon/vistoda_blink_engine/src/live_audio_uplink.rs:42-87 | Undisturbed, on the current connection: the bytes written are SAVE or DISCARD of the request, if it is not the last one written, then STOP if a START is open whose epoch is no longer wanted, then START if a live available owner has none |
| `AudioOutcomes.RequestReachesTheWire` | addon/vistoda_blink_engine/src/live_audio_uplink.rs:42-57 | In every reachable state, over the events of the run: the last request since the connection was opened becomes the last one on the wire; 17 00 00 00 01 is written for a request to save and 17 00 00 00 02 for one to discard, only if the last written differs |
| `AudioOutcomes.ClaimReachesTheWire` | addon/vistoda_blink_engine/src/live_audio_uplink.rs:58-87 | A claim of the microphone, reconciled undisturbed, writes STOP for an earlier open START and then START; letting go of it, reconciled, writes STOP |
| `AudioOutcomes.MessageIsObserved` | addon/vistoda_blink_engine/src/live_audio.rs:88-127 | What each message of the provider changes: format, availability or recording status, which of them end an ownership, and that on another connection nothing changes and the loop ends |
| `AudioOutcomes.AudioBytes` | addon/vistoda_blink_engine/src/immi_audio_wire.rs:116-138 | The bytes of an AAC packet: 05, number, length, and the frame with cleared buffer fullness |
| `AudioOutcomes.TickIsNumbered` | addon/vistoda_blink_engine/src/live_audio.rs:134-150 | Tick n writes the latency packet, byte for byte, and every tenth before it a keepalive with the number n / 10 |
| `AudioUplink.UndisturbedSend` | addon/vistoda_blink_engine/src/live_audio_uplink.rs:89-135 | With nobody interfering, a valid frame is sent as one AAC write under the next number of its epoch, within the rest of its 200 ms |
| `AudioUplink.InvalidFrameIsDropped` | addon/vistoda_blink_engine/src/live_audio_uplink.rs:89-104 | A frame that is not valid writes nothing beyond the reconciliation and takes no number |
| `AudioUplink.LateFrameIsNotSent` | addon/vistoda_blink_engine/src/live_audio_uplink.rs:105-135 | However a frame came through its first check, it is not written once others have taken its 200 ms |
| `AudioUplink.ReconcileKeeps` | addon/vistoda_blink_engine/src/live_audio_uplink.rs:42-82 | Reconciling keeps the connection invariant: the open START is the writer's `started_epoch`, numbers follow the log, alternation holds without preemption |
| `AudioUplink.SendKeeps` | addon/vistoda_blink_engine/src/live_audio_uplink.rs:89-135 | Sending a frame keeps the connection invariant, whatever others do at each await |
| `AudioUplink.SessionKeeps` | addon/vistoda_blink_engine/src/live_audio.rs:44-79 | Every run of the event loop keeps the invariant until it ends, and ends safe |
| `AudioTransport.CompletedWritesParse` | addon/vistoda_blink_engine/src/live_audio.rs:134-150 | The bytes of all completed writes parse as whole IMMI frames, exactly the messages written, with no byte over |
| `AudioTransport.WireBytesAreMessages` | addon/vistoda_blink_engine/src/live_audio_uplink.rs:42-135 | Each single write is the encoding of whole IMMI frames |
| `AudioTransport.Tls.Deliver` | addon/vistoda_blink_engine/src/live_audio.rs:153-165 | A completed write appends its bytes and its packet; a timed-out one is only remembered as torn |
| `AudioTransport.Uplink.KeepaliveBudget` | addon/vistoda_blink_engine/src/live_audio_uplink.rs:28-40 | 200 ms while a START is open or the microphone is wanted, else 5 s; the desire is read only in the second case |
| `AudioTransport.Uplink.StopMicrophone` | addon/vistoda_blink_engine/src/live_audio_uplink.rs:83-87 | The awaited STOP, and `started_epoch` cleared only once it completed |
| `AudioTransport.Uplink.ReconcileControl` | addon/vistoda_blink_engine/src/live_audio_uplink.rs:42-82 | The in-place reconcile is the specified one, for every interference; undisturbed, its bytes are those of `AudioOutcomes.ReconcileWrites` |
| `AudioTransport.Uplink.ActivateMicrophone` | addon/vistoda_blink_engine/src/live_audio_uplink.rs:68-80 | The second reading and START are as specified |
| `AudioTransport.Uplink.SendFrame` | addon/vistoda_blink_engine/src/live_audio_uplink.rs:89-115 | The in-place send is the specified one, for every interference |
| `AudioTransport.Uplink.WriteAudio` | addon/vistoda_blink_engine/src/live_audio_uplink.rs:116-135 | A packet number is consumed only by a completed write |
| `AudioTransport.KeepaliveClock.SendTick` | addon/vistoda_blink_engine/src/live_audio.rs:134-150 | Every tick writes the latency packet, every tenth a numbered keepalive before it, with wrapping 32-bit counters |
| `AudioTransport.ProcessEvent` | addon/vistoda_blink_engine/src/live_audio.rs:88-127 | One provider event changes authorisation, or the connection is found obsolete |
| `AudioTransport.Process` | addon/vistoda_blink_engine/src/live_audio.rs:88-127 | Provider events are applied in the order they arrive, up to the first failure |
| `AudioTransport.HandleWake` | addon/vistoda_blink_engine/src/live_audio.rs:44-79 | Each wake-up of the loop is handled as specified |
| `AudioTransport.ReceiveStream` | addon/vistoda_blink_engine/src/live_audio.rs:21-80 | The event loop refines the specified session: reconcile before every wake-up, one writer |
| `AudioTransport.Serve` | addon/vistoda_blink_engine/src/live_audio.rs:21-80 | A connection from opening to drop: safe writes, wire bytes that parse completely, and no lease of it authorised afterwards |
| `AudioLease.ReachableKeepsInv` | addon/vistoda_blink_engine/src/immi_audio_lease.rs:50-211 | In every state reachable from the initial one `owned` implies a live sender, a supported format and an allowing policy, and the published status agrees with the state |
| `AudioLease.RunKeepsInv` | addon/vistoda_blink_engine/src/immi_audio_lease.rs:50-211 | Every run keeps that invariant |
| `AudioLease.StepKeepsInv` | addon/vistoda_blink_engine/src/immi_audio_lease.rs:50-211 | Each locked step keeps that invariant |
| `AudioLease.FieldsAreHistory` | addon/vistoda_blink_engine/src/immi_audio_lease.rs:91-211 | Every field of a reachable state as a function of the events of the run: how often it was opened, whether it still is, policy, offer, availability, the last SAVE or DISCARD request and the recording status since then |
| `AudioLease.FramesAreCounted` | addon/vistoda_blink_engine/src/immi_audio_connection.rs:56-65 | Over any run: the number of frames counted for a lease that stays authorised is the number of completed writes reported for it |
| `AudioLease.OwnershipEndsExactlyByRevocation` | addon/vistoda_blink_engine/src/immi_audio_lease.rs:202-211 | A live owner loses the microphone at a step iff the step is one of the revoking ones; a stale drop never revokes a newer owner |
| `AudioLease.RevocationIsFinal` | addon/vistoda_blink_engine/src/immi_audio_connection.rs:39-111 | Once an issued lease no longer matches, no later run makes the lease, or a frame queued under it, valid again |
| `AudioLease.OwnedUntilRevoked` | addon/vistoda_blink_engine/src/immi_audio_lease.rs:118-143 | Over any run an owner still holds the microphone iff no step of the run revoked it |
| `AudioLease.GrantIsAuthorised` | addon/vistoda_blink_engine/src/immi_audio_lease.rs:118-143 | A successful claim grants a lease that is authorised at once |
| `AudioLease.OneOwner` | addon/vistoda_blink_engine/src/immi_audio_lease.rs:118-143 | Of the leases granted by two claims of one run at most one is ever authorised |
| `AudioLease.PublishedEligibilityIsExact` | addon/vistoda_blink_engine/src/immi_audio_status.rs:16-28 | A claim succeeds iff subscribers see a supported microphone that is not in use |
| `AudioLease.SubmitIffAuthorised` | addon/vistoda_blink_engine/src/immi_audio_lease.rs:172-200 | A frame is queued iff its lease is authorised and the frame is whole, fresh and within the queue bound; then it is valid |
| `AudioLease.AudioRuntime.ConnectWithPolicy` | addon/vistoda_blink_engine/src/immi_audio_lease.rs:91-117 | A reconnect starts a new generation and epoch, empties the queue and ends every earlier ownership |
| `AudioLease.AudioRuntime.ClaimMicrophone` | addon/vistoda_blink_engine/src/immi_audio_lease.rs:118-143 | Claims with the error order of the source, and grants the new epoch |
| `AudioLease.AudioRuntime.Request` | addon/vistoda_blink_engine/src/immi_audio_lease.rs:144-157 | A SAVE or DISCARD request is recorded, or refused without a connection |
| `AudioLease.AudioRuntime.SubmitFrame` | addon/vistoda_blink_engine/src/immi_audio_lease.rs:172-200 | Queues a frame or reports why not; a full queue refuses |
| `AudioLease.AudioRuntime.ReceiveFrame` | addon/vistoda_blink_engine/src/live_audio.rs:44-60 | Takes queued frames in order |
| `AudioLease.AudioRuntime.ReleaseLease` | addon/vistoda_blink_engine/src/immi_audio_lease.rs:202-211 | Dropping the live lease ends the epoch; dropping a stale one changes nothing |
| `AudioLease.AudioRuntime.NoteRecording` | addon/vistoda_blink_engine/src/immi_audio_connection.rs:29-38 | Stores the provider's recording status for the current connection only |
| `AudioLease.AudioRuntime.NoteAvailability` | addon/vistoda_blink_engine/src/immi_audio_connection.rs:39-55 | Lost availability under a multi-client policy revokes the owner |
| `AudioLease.AudioRuntime.NoteOffer` | addon/vistoda_blink_engine/src/immi_audio_connection.rs:66-83 | A changed offer revokes the owner and forgets availability |
| `AudioLease.AudioRuntime.CountSentFrame` | addon/vistoda_blink_engine/src/immi_audio_connection.rs:56-65 | Counts completed writes of the current owner, saturating, publishing the first and every sixteenth |
| `AudioLease.AudioRuntime.CloseConnection` | addon/vistoda_blink_engine/src/immi_audio_connection.rs:96-111 | Dropping the current connection ends everything it authorised; an obsolete one changes nothing |
| `ImmiFraming.ChunkingIrrelevant` | addon/vistoda_blink_engine/src/framing.rs:48-108 | For any split of a stream the concatenated events and the residue equal a one-shot parse, and an oversized header is found in both or neither |
| `ImmiFraming.FrameIsReported` | addon/vistoda_blink_engine/src/framing.rs:48-108 | On wire bytes, between any other whole frames and for any chunking: type 00 whose payload begins with 47 yields that video payload, an empty 0c frame its format, type 18 with 4, 5, 1, 2 or 3 the availability true, false or that recording status, and every other frame nothing; the events before and after are those without it |
| `ImmiFraming.OversizedHeader` | addon/vistoda_blink_engine/src/framing.rs:51-72 | A header announcing more than 4 MiB fails the stream, whatever the type and the chunking |
| `ImmiFraming.EncodedFramesSurviveChunking` | addon/vistoda_blink_engine/src/framing.rs:48-108 | Encoding any frames and decoding any chunking of them returns exactly their events, which `ImmiFraming.FrameIsReported` gives frame by frame, with nothing left |
| `ImmiFraming.ParseEncoded` | addon/vistoda_blink_engine/src/framing.rs:48-108 | Parsing an encoded frame list gives its events and leaves no byte |
| `ImmiFraming.ParseAppend` | addon/vistoda_blink_engine/src/framing.rs:48-108 | Parsing a longer stream continues from the residue of the shorter one |
| `ImmiFraming.NoByteLost` | addon/vistoda_blink_engine/src/framing.rs:48-108 | Every byte is in one reported frame or still undecoded |
| `ImmiFraming.RestIsIncomplete` | addon/vistoda_blink_engine/src/framing.rs:48-108 | The residue holds no complete frame and no oversized header |
| `ImmiFraming.ImmiDecoder.PushEvents` | addon/vistoda_blink_engine/src/framing.rs:48-108 | The in-place loop terminates, returns the events of the one-shot parse of what it held plus the chunk (`ImmiFraming.FrameIsReported`), and holds less than a header or less than the announced payload of at most 4 MiB |
| `ImmiFraming.ImmiDecoder.Push` | addon/vistoda_blink_engine/src/framing.rs:33-44 | The video payloads of the same events, in order |
| `ImmiFraming.ImmiDecoder.Finish` | addon/vistoda_blink_engine/src/framing.rs:110-117 | Succeeds iff the stream ended on a frame boundary |
| `AdtsFraming.BytesConserved` | addon/vistoda_blink_engine/src/immi_audio_wire.rs:67-88 | Without an error, emitted frames plus buffer are the whole input, and each frame has the length its header declares, 8 to 8191 |
| `AdtsFraming.ChunkingIrrelevant` | addon/vistoda_blink_engine/src/immi_audio_wire.rs:55-88 | Any chunking gives the frames, the buffer and the error of the one-shot split |
| `AdtsFraming.FramesSurviveChunking` | addon/vistoda_blink_engine/src/immi_audio_wire.rs:55-88 | Any chunking of a concatenation of whole frames returns exactly those frames |
| `AdtsFraming.SplitOfFrames` | addon/vistoda_blink_engine/src/immi_audio_wire.rs:67-88 | A concatenation of whole frames splits back into them |
| `AdtsFraming.ResidueIsShort` | addon/vistoda_blink_engine/src/immi_audio_wire.rs:67-88 | What is held back is shorter than its frame, so the space left in the buffer never underflows |
| `AdtsFraming.HeaderAcceptedIff` | addon/vistoda_blink_engine/src/immi_audio_wire.rs:25-44 | In bytes: which seven-byte headers are accepted, and the frame length they declare |
| `AdtsFraming.AdtsDecoder.Push` | addon/vistoda_blink_engine/src/immi_audio_wire.rs:55-65 | Agrees with the one-shot split; after one error every push is `Poisoned` |
| `AdtsFraming.AdtsDecoder.Consume` | addon/vistoda_blink_engine/src/immi_audio_wire.rs:67-88 | The in-place loop computes the one-shot split of buffer and input |
| `AdtsFraming.AdtsDecoder.Finish` | addon/vistoda_blink_engine/src/immi_audio_wire.rs:90-99 | Succeeds iff nothing is held and nothing failed |
| `AdtsFraming.NormalisationKeepsTheFrame` | addon/vistoda_blink_engine/src/immi_audio_wire.rs:121-138 | Normalising changes only buffer fullness: declared length, other header fields and payload survive, and it is idempotent |
| `AdtsFraming.AudioPacketWriter.AudioFrame` | addon/vistoda_blink_engine/src/immi_audio_wire.rs:116-138 | One whole IMMI frame per AAC frame; a refused frame consumes no number |
| `Microphone.StampsAreSampleTimes` | addon/vistoda_blink_engine/src/walnut_microphone.rs:124-176 | For every sequence of records and takes: accepted samples are 1024 per stamped frame plus those queued, and stamp k is the receipt time of sample 1024 k |
| `Microphone.StampsNeverRunBack` | addon/vistoda_blink_engine/src/walnut_microphone.rs:124-176 | With a clock that does not run back, stamps never decrease and at most 4096 samples are queued |
| `Microphone.OnlyFirstTakePrimes` | addon/vistoda_blink_engine/src/walnut_microphone.rs:124-176 | Of any sequence of records and takes the first take, and no other, is the priming frame without a date |
| `Microphone.AcceptedIff` | addon/vistoda_blink_engine/src/walnut_microphone.rs:138-176 | Over any sequence of records and takes: a record is taken iff it is not empty and at most 4096 samples are then undated, a take after the first gives a stamp iff 1024 are |
| `Microphone.Provenance.Note` | addon/vistoda_blink_engine/src/walnut_microphone.rs:139-146 | The run-length queue records like the per-sample queue |
| `Microphone.Provenance.Date` | addon/vistoda_blink_engine/src/walnut_microphone.rs:147-175 | Taking 1024 samples across run boundaries is taking them from the per-sample queue; runs stay positive and their sum stays exact |
| `Microphone.MicrophoneEpoch.Pcm` | addon/vistoda_blink_engine/src/walnut_microphone.rs:48-75 | A packet is accepted iff its size, the rate and the backlog allow it and the encoder takes it; recording its provenance then cannot fail |
| `Microphone.MicrophoneEpoch.Forward` | addon/vistoda_blink_engine/src/walnut_microphone.rs:77-109 | Exactly the frames still fresh when checked are offered, in order, each the right encoder frame dated by its first PCM sample, under this epoch's lease; every other dated frame is counted as dropped, as stale or for a full queue |
| `Microphone.MicrophoneEpoch.DateFrame` | addon/vistoda_blink_engine/src/walnut_microphone.rs:147-175 | Frame n since priming is dated by sample 1024 n; the priming frame has no date |
| `Microphone.MicrophoneEpoch.Offer` | addon/vistoda_blink_engine/src/walnut_microphone.rs:194-207 | A full queue or expiry only counts a drop; a lost lease is an error |
| `RecordingSpool.SpoolIsSafe` | addon/vistoda_blink_engine/src/recordings/mod.rs:71-225 | In every reachable state, crashes after any file effect included: every media file is named by the journal, at most one recording per camera is active, and spool bytes plus one maximum per active recording without a file stay within quota + (cameras - 1) maxima |
| `RecordingSpool.StepKeeps` | addon/vistoda_blink_engine/src/recordings/mod.rs:71-225 | Each step, whatever fails in it, keeps the invariant behind that |
| `RecordingSpool.RecoveryIsCleanAndIdempotent` | addon/vistoda_blink_engine/src/recordings/recovery.rs:40-58 | After recovery nothing is active, no partial remains, every ready recording has exactly its file, and recovering again changes nothing; `RecordingSpool.RestartDecides` says what becomes of each recording |
| `RecordingSpool.RestartDecides` | addon/vistoda_blink_engine/src/recordings/recovery.rs:40-58 | Over crash, removals in any order and reload: a pending or running recording becomes failed as interrupted, a ready one without its file failed as missing media, and every other one, ready with its file or failed, is unchanged; a recording is ready afterwards iff it was and its file is there |
| `RecordingSpool.SweepThenReload` | addon/vistoda_blink_engine/src/recordings/recovery.rs:40-58 | The removals of a recovery and its journal write reach that state in whatever order they happen |
| `RecordingSpool.RecoveredTwice` | addon/vistoda_blink_engine/src/recordings/recovery.rs:40-58 | Recovering a recovered journal is the identity |
| `RecordingSpool.RunRemembers` | addon/vistoda_blink_engine/src/recordings/mod.rs:71-131 | A journaled request id maps to its one recording through every run, until that recording is acknowledged |
| `RecordingSpool.RepeatedRequestStartsNothing` | addon/vistoda_blink_engine/src/recordings/mod.rs:71-131 | Repeating a started request later, after crashes too, is accepted and starts nothing |
| `RecordingSpool.StartIsStuckIff` | addon/vistoda_blink_engine/src/recordings/mod.rs:107-131 | A new recording is left pending without a task iff its journal write is not synced or its caller is gone before the spawn |
| `RecordingSpool.FailedStartBlocksTheCamera` | addon/vistoda_blink_engine/src/recordings/mod.rs:115-121 | Such a recording stays, and its camera refuses new requests, in every run until the engine restarts |
| `RecordingOutcomes.RecordingSucceeds` | addon/vistoda_blink_engine/src/recordings/mod.rs:71-225 | A request accepted, captured and saved without a failure: exactly one recording more, ready, with camera, time and duration asked for, and its file, size and digest are exactly the captured bytes |
| `RecordingOutcomes.RecordingFails` | addon/vistoda_blink_engine/src/recordings/job.rs:14-58 | A capture that ends in an error leaves the recording failed with that error, no file and no partial |
| `RecordingOutcomes.AcknowledgedIsGone` | addon/vistoda_blink_engine/src/recordings/mod.rs:171-190 | Acknowledging a finished recording removes its file, manifest and request, and nothing else |
| `RecordingOutcomes.RemovalGivenUp` | addon/vistoda_blink_engine/src/recordings/mod.rs:171-190 | If the removal of the file is not synced, the recording stays in the journal without its file |
| `RecordingOutcomes.EndWritesJournal` | addon/vistoda_blink_engine/src/recordings/job.rs:32-37 | The end of a recording writes the journal once more, and with it what earlier failed writes left out |
| `RecordingOutcomes.RequestAcceptedIff` | addon/vistoda_blink_engine/src/recordings/mod.rs:71-131 | A new request is accepted iff duration and id are in range, the camera is known and idle and the spool has room; otherwise nothing changes and the error is the first of these that fails |
| `RecordingOutcomes.KnownRequestAnswered` | addon/vistoda_blink_engine/src/recordings/mod.rs:79-104 | A known request is answered with its recording iff camera and duration are the same, and changes nothing |
| `RecordingManager.CaptureTakesAppendSteps` | addon/vistoda_blink_engine/src/recordings/job.rs:60-100 | A successful capture is a run of append steps within the byte cap |
| `RecordingManager.Manager.SpoolBytes` | addon/vistoda_blink_engine/src/recordings/recovery.rs:6-21 | Sums the sizes of the finished files |
| `RecordingManager.Manager.Persist` | addon/vistoda_blink_engine/src/recordings/mod.rs:235-245 | The journal file becomes the in-memory journal, or stays, or becomes it with an error |
| `RecordingManager.Manager.Begin` | addon/vistoda_blink_engine/src/recordings/mod.rs:71-131 | Takes the start step of the machine, with the source's error order and idempotent repeats |
| `RecordingManager.Manager.Acknowledge` | addon/vistoda_blink_engine/src/recordings/mod.rs:171-190 | Removes the file before the manifest, refuses an active recording, and stops at the first failed effect |
| `RecordingManager.Manager.ReportRecording` | addon/vistoda_blink_engine/src/recordings/mod.rs:192-202 | Takes the mark-recording step and hands out camera and duration, or the error |
| `RecordingManager.Manager.ReportReady` | addon/vistoda_blink_engine/src/recordings/mod.rs:204-225 | Takes the mark-ready step for the renamed file and reports the failed write |
| `RecordingManager.Manager.RecoverManifests` | addon/vistoda_blink_engine/src/recordings/recovery.rs:40-58 | The loop over manifests computes the recovered journal, each manifest as `RecordingSpool.RestartDecides` says |
| `RecordingManager.Manager.Load` | addon/vistoda_blink_engine/src/recordings/mod.rs:46-69 | Succeeds iff the journal is read, every partial removed and the journal write synced, and then reaches the state of a reload, in which ready recordings with their file are as before (`RecordingSpool.RestartDecides`); a failed load leaves the stated disk, from which the next one reaches the same state |
| `RecordingSpool.FailedLoadsLoseNothing` | addon/vistoda_blink_engine/src/recordings/mod.rs:46-69 | However many loads fail, at whatever removal or write, the load that succeeds reaches the state it would have reached at once, with every media file |
| `RecordingManager.Manager.CaptureStream` | addon/vistoda_blink_engine/src/recordings/job.rs:60-100 | The capture loop returns the specified content or error |
| `RecordingManager.Manager.OldestMotion` | addon/vistoda_blink_engine/src/recordings/motion.rs:44-64 | Finds the oldest completed motion recording, or shows there is none |
| `RecordingManager.Manager.EvictOldestMotion` | addon/vistoda_blink_engine/src/recordings/motion.rs:44-64 | Removes exactly that recording and its file |
| `RecordingManager.Manager.MotionRound` | addon/vistoda_blink_engine/src/recordings/motion.rs:14-42 | One round of the loop starts the recording, gives up, or evicts one recording and has one manifest fewer |
| `RecordingManager.Manager.BeginMotion` | addon/vistoda_blink_engine/src/recordings/motion.rs:14-42 | The loop terminates; evictions happen only while the spool has no headroom, everything else is untouched, a capacity error means nothing evictable is left, and otherwise the state and the answer are those of the request made after the evictions |
| `RecordingManager.EndsMeans` | addon/vistoda_blink_engine/src/recordings/motion.rs:14-42 | How starting a motion recording ends: answered like any request when the spool is not full; else nothing is left to remove, or a removal failed |
| `RecordingManager.EvictedAreCompletedMotion` | addon/vistoda_blink_engine/src/recordings/motion.rs:44-64 | Everything evicted was a completed motion recording, none twice, older before newer |
| `RecordingManager.EvictionStep` | addon/vistoda_blink_engine/src/recordings/motion.rs:14-42 | Each eviction extends the order and shrinks the journal |
| `OAuthSession.SingleFlight` | addon/vistoda_blink_engine/src/blink_session.rs:90-116 | In every run, imports and cancellations included, at most one token request is in progress |
| `OAuthSession.RunKeepsExclusive` | addon/vistoda_blink_engine/src/blink_session.rs:86-116 | The lock owner is the one task in a critical section |
| `OAuthSession.SpentTokensAreNeverOffered` | addon/vistoda_blink_engine/src/blink_session.rs:90-152 | In every run whose imports bring unused tokens: a refresh token exchanged with the answer received is never offered again, and whenever the lock is free memory holds no such token |
| `OAuthSession.RunKeepsTokens` | addon/vistoda_blink_engine/src/blink_session.rs:90-152 | The invariant behind that, over any run |
| `OAuthSession.StaleImportIsOffered` | addon/vistoda_blink_engine/src/blink_client.rs:145-180 | Importing a spent token makes the client offer it again: a run from any state with a free lock |
| `OAuthSession.ImportOfTokenInUseIsOffered` | addon/vistoda_blink_engine/src/blink_client.rs:145-180 | Importing the token in use: the refresh of the importer fails for the moment, another caller spends the token, backing out puts it back into memory and the next caller offers it, in a run from start-up |
| `OAuthSession.GrantedRotation` | addon/vistoda_blink_engine/src/blink_session.rs:90-162 | From any state that would request: call, request, answer, installation and save leave exactly the stated state, for every write outcome |
| `OAuthRequests.OneRequestServesAllCallers` | addon/vistoda_blink_engine/src/blink_session.rs:66-116 | After a rotation installs an access token, whose own refusal by Blink does not follow, no caller causes a request until 60 seconds before its expiry and the token stays |
| `OAuthRequests.RequestAgainIff` | addon/vistoda_blink_engine/src/blink_http.rs:34-98 | Until then the next caller requests a token again iff the installed access token itself was refused since; refusals of older ones change nothing |
| `OAuthRequests.CallerRequestsIff` | addon/vistoda_blink_engine/src/blink_session.rs:66-116 | A caller that finds the lock free causes a request iff there is a session, its access token is missing or has at most 60 seconds left, and no failure of this generation is less than 10 seconds, or 30 minutes for a rejection, old |
| `OAuthRequests.RefusedTokenIsReplaced` | addon/vistoda_blink_engine/src/blink_http.rs:63-98 | Concretely, from start-up: a token just granted is refused and the next caller offers its refresh token at once |
| `OAuthRequests.LateRefusalsAreHarmless` | addon/vistoda_blink_engine/src/blink_http.rs:88-98 | Refusals of access tokens known before the answer, however late and many, never discard the new one and cause no request while it is fresh |
| `OAuthRequests.RefusalsCauseOneRequest` | addon/vistoda_blink_engine/src/blink_http.rs:34-98 | In every run from an idle state with any number of callers and of refusals of tokens known at its start, and answers that outlast it: at most one token request |
| `OAuthRequests.FailureQuietensAllCallers` | addon/vistoda_blink_engine/src/blink_session_health.rs:90-102 | After a failed or rejected refresh nothing is sent for 10 seconds or 30 minutes, whatever access tokens are refused meanwhile |
| `OAuthRequests.RunStaysQuiet` | addon/vistoda_blink_engine/src/blink_session.rs:90-116 | While a failure is recent, or a token fresh and not itself refused, no run without new credentials makes a request |
| `OAuthDisk.FileAgreesOrRetryIsAlive` | addon/vistoda_blink_engine/src/blink_session.rs:156-205 | In every run without imports, torn enrolments and dropped identity rewrites, whenever the lock is free: the file equals memory, or the pending flag is up and exactly one retry task is alive |
| `OAuthDisk.StepKeepsDiskIff` | addon/vistoda_blink_engine/src/blink_session.rs:156-205 | Without imports, the agreement breaks at a step iff, with a session in memory and no retry due, the step tears an enrolment between file and memory, or drops a request that has changed the identity in memory before its save replaces the file |
| `OAuthDisk.DroppedIdentityLosesTheFile` | addon/vistoda_blink_engine/src/blink_signaling.rs:98-112 | Concretely, from start-up: a request dropped between its rewrite of the identity and the rename leaves the old file, the new identity in memory, no flag and no retry |
| `OAuthDisk.TornEnrolmentLosesTheFile` | addon/vistoda_blink_engine/src/blink_client.rs:114-143 | Concretely: an enrolment whose save fails after the replacement leaves new credentials on disk, old ones in memory and no flag |
| `OAuthDisk.RefusedImportLosesTheFile` | addon/vistoda_blink_engine/src/blink_client.rs:145-180 | From start-up: a refused save makes a retry due, the retry fires while an import waits, saves the unverified credentials and clears the flag; backing out leaves the file wrong |
| `OAuthDisk.ImportEndsIff` | addon/vistoda_blink_engine/src/blink_client.rs:145-180 | For every ending of an import (backed out, replaced by another, dropped while it waits, holds the lock, is tried or saves, saved): the file agrees with memory or a retry is due iff the stated condition on the state before the ending holds |
| `OAuthDisk.BackingOutAgreesIff` | addon/vistoda_blink_engine/src/blink_client.rs:161-175 | Backing out of an import agrees with the file iff a retry is due or nobody wrote the file since |
| `OAuthDisk.DroppedImportLosesTheFile` | addon/vistoda_blink_engine/src/blink_client.rs:145-180 | From start-up: an import dropped while it is tried leaves its credentials in memory, the old file, no flag and no retry |
| `OAuthClient.LatchIff` | addon/vistoda_blink_engine/src/blink_session_health.rs:62-88 | Re-authentication is required iff a rejection was not followed by a success or by new credentials |
| `OAuthClient.SessionHealth.constructor` | addon/vistoda_blink_engine/src/blink_session_health.rs:28-38 | A new session starts with empty histories, of which its flags and counters are functions ever after |
| `OAuthClient.SessionHealth.RefreshSucceeded` | addon/vistoda_blink_engine/src/blink_session_health.rs:62-66 | Clears the failure and the latch |
| `OAuthClient.SessionHealth.RefreshFailed` | addon/vistoda_blink_engine/src/blink_session_health.rs:68-82 | Records the failure of this generation; only a rejection sets the latch |
| `OAuthClient.SessionHealth.CredentialsReplaced` | addon/vistoda_blink_engine/src/blink_session_health.rs:84-88 | Clears the failure and the latch without counting a success |
| `OAuthClient.SessionHealth.CoolingFailure` | addon/vistoda_blink_engine/src/blink_session_health.rs:90-102 | Reports a failure iff it is of this generation and still cooling down |
| `OAuthClient.SessionHealth.Persisted` | addon/vistoda_blink_engine/src/blink_session_health.rs:104-106 | Records a successful write and tells whether the write before it failed; the pending flag always says whether the last write failed |
| `OAuthClient.SessionHealth.PersistFailed` | addon/vistoda_blink_engine/src/blink_session_health.rs:108-111 | Records a failed write; the failure counter is the number of failed writes ever |
| `OAuthClient.SessionHealth.StartRetry` | addon/vistoda_blink_engine/src/blink_session_health.rs:118-120 | Grants a retry task iff the last one has ended: between two grants there is always an end |
| `OAuthClient.SessionHealth.StopRetry` | addon/vistoda_blink_engine/src/blink_session_health.rs:122-124 | Records the end of the retry task, after which the next claim is granted |
| `OAuthClient.BlinkClient.ReplaceSession` | addon/vistoda_blink_engine/src/blink_session.rs:80-84 | Replaces the session under a new generation |
| `OAuthClient.BlinkClient.SaveCurrent` | addon/vistoda_blink_engine/src/blink_session.rs:164-189 | Saves the credentials in memory, if any, and keeps the pending flag exact |
| `OAuthClient.BlinkClient.PersistLocked` | addon/vistoda_blink_engine/src/blink_session.rs:156-162 | Has the effect of the save steps of the machine, retry included |
| `OAuthClient.BlinkClient.Identify` | addon/vistoda_blink_engine/src/blink_signaling.rs:98-112 | Has the effect of the rewrite and save steps of the machine; fails iff there is no session any more |
| `OAuthClient.BlinkClient.Rotate` | addon/vistoda_blink_engine/src/blink_session.rs:118-152 | Has the effect of the answer, install and save steps of the machine, for every answer and write outcome |
| `OAuthClient.BlinkClient.RetryOnce` | addon/vistoda_blink_engine/src/blink_session.rs:191-205 | Has the effect of one retry turn, and ends exactly when that ends |
| `OAuthClient.BlinkClient.Enroll` | addon/vistoda_blink_engine/src/blink_client.rs:114-143 | Has the effect of the enrolment steps: file first, then memory |
| `OAuthClient.BlinkClient.Refresh` | addon/vistoda_blink_engine/src/blink_session.rs:90-116 | Requests a token exactly when the check step does, the condition of `OAuthRequests.CallerRequestsIff` written out |
| `OAuthClient.BlinkClient.InvalidateAccess` | addon/vistoda_blink_engine/src/blink_http.rs:88-98 | Forgets the access token in memory iff it is the one that was refused |
| `SettingsRestore.PlanWritesTheDifferences` | custom_components/blink_live_bridge/settings_restore.py:52-80 | A plan writes each saved key at most once, exactly those whose value differs, with the saved value, all writable, by ascending rank |
| `SettingsRestore.ReplayRestores` | custom_components/blink_live_bridge/settings_restore.py:52-80 | Replaying the plan gives every saved setting its saved value and leaves every other setting alone |
| `SettingsRestore.EveryWriteAcceptedIff` | custom_components/blink_live_bridge/settings_restore.py:91-104 | From thresholds 10 degrees apart, the engine's gap check passes at every single write iff they end 10 degrees apart |
| `SettingsRestore.WidenFirst` | custom_components/blink_live_bridge/settings_restore.py:91-104 | Then every prefix of the plan keeps the gap |
| `SettingsRestore.AlertsFirstOffLastOn` | custom_components/blink_live_bridge/settings_restore.py:94-104 | Switching alerts off is the first write, switching them on the last |
| `SettingsRestore.SortSorts` | custom_components/blink_live_bridge/settings_restore.py:104 | Sorting orders by rank and keeps every item |
| `SettingsRestore.SortIsStable` | custom_components/blink_live_bridge/settings_restore.py:104 | Writes of equal rank keep the order of the backup |
| `PlanRules.PlanExistsIff` | custom_components/blink_live_bridge/settings_restore.py:52-80 | There is a plan iff every saved key is writable, no threshold that changes is null, alerts are not to be on without both thresholds saved as numbers, and no threshold changes between number and text; the error is that of the first saved key that fails, then of the other two in this order |
| `PlanRules.PlanOrder` | custom_components/blink_live_bridge/settings_restore.py:91-104 | A plan writes alerts off, thresholds that move outwards, other settings, thresholds that move inwards, alerts on, in this order, and within each of these in the order in which the keys were saved |
| `PlanRules.DifferIsUnequal` | custom_components/blink_live_bridge/settings_restore.py:78 | Values differ as in Python: True equals 1, False equals 0 |
| `PlanRules.Comparison` | custom_components/blink_live_bridge/settings_restore.py:97-101 | Values are ordered as in Python: numbers with True as 1, texts by their first difference, anything else raises |
| `PlanRules.LastFieldCounts` | custom_components/blink_live_bridge/settings_restore.py:53-62 | Of fields with the same key the last one counts |
| `PlanRules.FirstFieldOrders` | custom_components/blink_live_bridge/settings_restore.py:53-62 | Keys stand in the order of their first fields |
| `SettingsEngine.RollbackPlannedIff` | custom_components/blink_live_bridge/settings_backup.py:131-145 | After any writes the engine took, the snapshot can be planned again iff it does not ask for alerts without both thresholds as integers |
| `SettingsEngine.AlertsBlockTheWayBack` | custom_components/blink_live_bridge/settings_restore.py:74-79 | Concretely: alerts on, no measured temperature, so the thresholds are not in the snapshot, and after one other write it cannot be planned |
| `SettingsEngine.RollbackRestoresIff` | addon/vistoda_blink_engine/src/blink_settings_write.rs:169-207 | After any writes the engine took, going back to the snapshot brings every value back iff nothing differs, or the snapshot can be planned, every old value is itself valid as it is, and thresholds that differ were 10 degrees apart |
| `SettingsEngine.OddClipLengthStays` | addon/vistoda_blink_engine/src/blink_settings_write.rs:175-186 | Concretely: a clip length of 62 seconds, step 5 from 5, was changed to 60 and is not taken back |
| `SettingsEngine.TakenReaches` | addon/vistoda_blink_engine/src/blink_settings_write.rs:169-207 | Any writes the engine took change only writable values, and thresholds only from integers to integers 10 degrees apart |
| `SettingsView.ValidatedIsAdmissible` | addon/vistoda_blink_engine/src/blink_settings_write.rs:169-207 | For every document and field the validation of the backup model accepts exactly what the engine accepts, and stores the same value |
| `SettingsView.ChangeTakenIff` | addon/vistoda_blink_engine/src/blink_settings_write.rs:33-68 | The engine takes a change iff the field is writable, the value valid and, for a threshold, the gap check passes |
| `SettingsView.ChangeUpdatesView` | addon/vistoda_blink_engine/src/blink_settings_write.rs:33-85 | A change that is taken changes its own field in nothing but the value, limits and options included, and no other field |
| `SettingsEngine.FinalCheckIff` | custom_components/blink_live_bridge/settings_restore.py:83-88 | The final verification passes iff the backup does not give one key two values and every written value is stored as it is, untrimmed |
| `SettingsBackup.RestoreReports` | custom_components/blink_live_bridge/settings_restore.py:20-49 | For every script of faults, escaping exceptions and foreign writes: success leaves exactly the plan applied to the expected revision, matching the backup; a reported failure reports nothing written, or a prefix the engine confirmed |
| `SettingsBackup.CalmRestore` | custom_components/blink_live_bridge/settings_restore.py:20-49 | Left alone, a camera gets every write of its plan up to the first that the engine refuses, and nothing if it is not at the expected revision |
| `SettingsBackup.CalmRefusal` | custom_components/blink_live_bridge/settings_restore.py:20-49 | Left alone, a restore that writes nothing says why: 409 for another revision, 422 for a plan refused for its thresholds, else no status |
| `SettingsBackup.FailureUndoneIff` | custom_components/blink_live_bridge/settings_backup.py:130-145 | After a restore that failed with an error that is handled, for every script: the camera has its old values iff they had not changed, or the failure was no conflict, named the revision the camera really has, and the engine takes the old values |
| `SettingsBackup.CompletionUndoneIff` | custom_components/blink_live_bridge/settings_backup.py:130-145 | The same for a camera whose restore had run to its end |
| `SettingsBackup.UndoneIff` | custom_components/blink_live_bridge/settings_backup.py:130-145 | The same for every ending of a restore: one that was broken off by an exception that is not handled is never undone |
| `SettingsBackup.SuccessMatches` | custom_components/blink_live_bridge/settings_backup.py:75-101 | Success iff every plan exists, every restore runs to its end and the last read of the state is not cut or malformed; in the first two cases every camera matches the backup, also if the operation then fails; a refused preflight changes nothing; whatever calls fail and others do |
| `SettingsBackup.ApplyUndoneIff` | custom_components/blink_live_bridge/settings_backup.py:80-97 | The operation ends at any camera, failed or broken off, for every script until then and of the other cameras: later cameras are untouched, and each other one, left alone from then on, has its old values iff they had not changed, or there is a rollback, no return before its own is broken off, and its own return works |
| `SettingsBackup.CalmRollbackReaches` | custom_components/blink_live_bridge/settings_backup.py:138-145 | With all cameras left alone, the rollback of a failure that is handled gets to every one of them |
| `SettingsFaults.OneFaultIff` | custom_components/blink_live_bridge/settings_backup.py:80-97 | All or nothing for one fault at any call of any camera, over plans of any length: the operation fails, and all cameras have their old values iff nothing had been written to the faulty one, or the fault is a refused write or a failed last read and no conflict after a write; and, for an exception that escapes, iff nothing at all was written to any camera |
| `SettingsFaults.LostReplyStaysChanged` | custom_components/blink_live_bridge/settings_restore.py:33-49 | Concretely: the first write takes effect and its reply is lost; nothing is rolled back and the camera stays changed |
| `SettingsFaults.CutReplyLeavesEarlierChanged` | custom_components/blink_live_bridge/client.py:45-60 | Concretely: two cameras, the first restored, the body of the first read of the second cut; no camera is rolled back and the first stays changed |
| `SettingsFaults.BrokenReturnAbandonsTheRest` | custom_components/blink_live_bridge/settings_backup.py:141-145 | Concretely: two cameras changed, the last read of the second refused, the first read of its return cut in its body; the rollback ends there and the first camera stays changed |
| `SettingsFaults.CutRefreshReportsFailure` | custom_components/blink_live_bridge/settings_backup.py:202-205 | Concretely: the restore runs to its end, the reply to the last read of the state is cut, and the operation fails with the camera changed |
| `SettingsBackup.Client.ApplyCamera` | custom_components/blink_live_bridge/settings_restore.py:20-49 | The restore of one camera as it runs is the specified one, escaping exceptions included, and touches no other camera |
| `SettingsBackup.Client.Rollback` | custom_components/blink_live_bridge/settings_backup.py:130-145 | The loop over the cameras to take back is the specified rollback: past failures that are handled, up to the first exception that is not |
| `SettingsBackup.Client.Apply` | custom_components/blink_live_bridge/settings_backup.py:75-101 | The loop over the targets is the specified operation, with its rollback after a failure that is handled and none after an exception that is not |
| `CameraSettings.ChangeIsReadBack` | addon/vistoda_blink_engine/src/blink_settings_write.rs:169-235 | For every document, field and accepted value: encoding, storing and reading back shows exactly that value in a field of the same kind |
| `CameraSettings.ChangeLeavesOthers` | addon/vistoda_blink_engine/src/blink_settings_write.rs:33-85 | And every other field is exactly as it was |
| `CameraSettings.WritingBackIff` | addon/vistoda_blink_engine/src/blink_settings_write.rs:69-85 | From the old document and from the changed one alike: the old entry can be written back iff it is no threshold, or a threshold stored as an integer with the old thresholds 10 degrees apart; then the document reads as before |
| `CameraSettings.TextThresholdStays` | addon/vistoda_blink_engine/src/blink_settings_write.rs:69-85 | Concretely: a threshold stored as the text 40 was changed to 45, and writing the text back is refused |
| `CameraSettings.LaterWriteDecides` | addon/vistoda_blink_engine/src/blink_settings_write.rs:105-137 | Of two writes of one setting the later decides what is read, in whatever form the first left the document |
| `CameraSettings.ThresholdChangeKeepsGap` | addon/vistoda_blink_engine/src/blink_temperature.rs:70-90 | A threshold write that is taken leaves both thresholds at least 10 degrees apart |
| `CameraSettings.BackBodyIff` | addon/vistoda_blink_engine/src/blink_temperature.rs:70-90 | The exact condition and result of the threshold body that undoes a threshold write; its measured temperature is that of the document, as `CameraSettings.ThresholdRequest` states for every threshold body |
| `CameraSettings.ThresholdRequest` | addon/vistoda_blink_engine/src/blink_temperature.rs:70-90 | Every threshold request carries the measured temperature of the document it was completed from, the desired value on its own side and the stored threshold on the other, and exists iff all are known, in range and 10 degrees apart |
| `CameraSettings.WritingThresholds` | addon/vistoda_blink_engine/src/blink_temperature.rs:70-90 | Echoing the other threshold changes no other field |
| `CameraSettings.FieldReads` | addon/vistoda_blink_engine/src/blink_setting_fields.rs:10-145 | A field depends only on its own entries, the measured temperature and whether alerts are known |
| `CameraSettings.OneReader` | addon/vistoda_blink_engine/src/blink_settings_write.rs:209-235 | The entry one key writes is read by no other field |
| `CameraSettings.SwitchShows` | addon/vistoda_blink_engine/src/blink_setting_helpers.rs:34-53 | Booleans read back in the representation the document had |
| `CameraSettings.NumberShows` | addon/vistoda_blink_engine/src/blink_setting_helpers.rs:55-68 | Integers read back |
| `CameraSettings.ChoiceShows` | addon/vistoda_blink_engine/src/blink_setting_fields.rs:123-145 | Night vision, infrared intensity and LED choices read back |
| `CameraSettings.QualityShows` | addon/vistoda_blink_engine/src/blink_setting_fields.rs:101-121 | A quality stays among its options, also when the current one was only there for being current |
| `CameraSettings.ThresholdShows` | addon/vistoda_blink_engine/src/blink_temperature.rs:70-90 | A threshold reads back as written |
| `SettingsTable.Switches` | addon/vistoda_blink_engine/src/blink_setting_fields.rs:18-98 | Motion detection, recording, audio, early end and early notice, for every document and value: in which entry the switch stands, when it is shown, when it is writable, and that it is written in the form it has |
| `SettingsTable.RareSwitches` | addon/vistoda_blink_engine/src/blink_setting_advanced.rs:11-51 | Which cameras have flip, photo capture and automatic thumbnail, the last of which is never written |
| `SettingsTable.AlertSwitch` | addon/vistoda_blink_engine/src/blink_temperature.rs:20-60 | The alert switch is shown like any other, set only on standard cameras, by its own request |
| `SettingsTable.AlertToggled` | addon/vistoda_blink_engine/src/blink_temperature.rs:20-60 | The alert request changes the switch, in the form it has, and nothing else |
| `SettingsTable.Numbers` | addon/vistoda_blink_engine/src/blink_setting_fields.rs:39-90 | Clip length, sensitivity, retrigger and volume: entry by camera type, limits, steps, accepted values, for every document and value |
| `SettingsTable.LinkStrength` | addon/vistoda_blink_engine/src/blink_setting_advanced.rs:43-50 | Shown from -100 to 0 and never written |
| `SettingsTable.NightVisionChoice` | addon/vistoda_blink_engine/src/blink_setting_fields.rs:123-145 | Read from text or from 0, 1, 2, and written back in the form it had |
| `SettingsTable.InfraredChoice` | addon/vistoda_blink_engine/src/blink_setting_advanced.rs:53-67 | 1, 4, 7 are low, medium, high, both ways; other numbers show nothing |
| `SettingsTable.LedChoice` | addon/vistoda_blink_engine/src/blink_setting_advanced.rs:69-84 | Options by camera type; taken iff among them |
| `SettingsTable.QualityChoice` | addon/vistoda_blink_engine/src/blink_setting_fields.rs:101-121 | The supported or the usual qualities and the current one; taken iff among them |
| `SettingsTable.NameField` | addon/vistoda_blink_engine/src/blink_setting_advanced.rs:11-12 | A name is taken iff it has 1 to 255 characters after trimming and no control character, and is sent trimmed |
| `SettingsTable.ThresholdFields` | addon/vistoda_blink_engine/src/blink_temperature.rs:20-60 | Limits of the thresholds by product; shown as null while only the switch is known; writable only with a reading |
| `SettingsTable.ThresholdTakenIff` | addon/vistoda_blink_engine/src/blink_temperature.rs:70-90 | A threshold is taken iff it is whole, within the limits of the product and 10 degrees from the other, and the request then carries both and the reading |
| `SettingsTable.TextsRead` | addon/vistoda_blink_engine/src/blink_setting_helpers.rs:108-120 | Numbers stored as text are read, with a sign or without, iff they fit 64 bits |
| `SettingsTable.OnlyDigitsRead` | addon/vistoda_blink_engine/src/blink_setting_helpers.rs:108-120 | No other text reads as a number |
| `SettingsTable.Trimmed` | addon/vistoda_blink_engine/src/blink_settings_write.rs:195-203 | Trimming takes white space off both ends and nothing else |
| `SettingsClient.ListingIsComplete` | addon/vistoda_blink_engine/src/blink_settings.rs:48-73 | The listing shows each field that exists exactly once |
| `SettingsClient.CameraSettingsOf` | addon/vistoda_blink_engine/src/blink_settings.rs:48-73 | Building the list field by field gives the specified listing |
| `SettingsClient.Client.WriteTemperatureThreshold` | addon/vistoda_blink_engine/src/blink_temperature.rs:174-192 | The in-place write of a threshold: a read that may fail, a body completed from it, with its measured temperature and its other threshold, or refused, and a request that may fail |
| `SettingsClient.Client.WriteSetting` | addon/vistoda_blink_engine/src/blink_settings_write.rs:105-137 | A write as specified for every outcome of its requests |
| `SettingsClient.Client.VerifySetting` | addon/vistoda_blink_engine/src/blink_settings_write.rs:139-166 | The loop of up to four reads stops as specified, at the first read that fails or shows the value |
| `SettingsClient.Client.WriteBack` | addon/vistoda_blink_engine/src/blink_settings_write.rs:75-85 | Writing the old entry and reading it fails in any case, with the specified error |
| `SettingsClient.Client.UpdateCameraSetting` | addon/vistoda_blink_engine/src/blink_settings_write.rs:33-85 | The call as it runs is the specified one, for every outcome of every request |
| `SettingsOutcome.ListingIsOldOrNew` | addon/vistoda_blink_engine/src/blink_settings_write.rs:33-85 | Whatever requests fail, lose their answers or take effect late, the listing is the old one, or the changed one iff the last write that took effect is the change; the same once late writes have arrived |
| `SettingsOutcome.ChangedIffItEndsWith` | addon/vistoda_blink_engine/src/blink_settings_write.rs:33-85 | For a change that is asked for, the listing differs from the old one iff the last write that took effect is the change |
| `SettingsOutcome.SuccessIsShown` | addon/vistoda_blink_engine/src/blink_settings_write.rs:61-68 | Success means the value shows, no other field changed and nothing is on its way |
| `SettingsNetwork.OutcomeIff` | addon/vistoda_blink_engine/src/blink_settings_write.rs:33-85 | On every network: success iff the checks pass, the write is confirmed, one of the four reads finds it and all requests up to the refresh are answered; the setting is changed in the end iff the write takes effect, at once or late, and the old entry is not written after it |
| `SettingsNetwork.PromptOutcomeIff` | addon/vistoda_blink_engine/src/blink_settings_write.rs:33-85 | With nothing late: success iff the requests up to the refresh succeed; failure with the setting changed iff the write takes effect and then its answer, the first read-back or the refresh fails |
| `SettingsOutcome.LateWriteStrands` | addon/vistoda_blink_engine/src/blink_settings_write.rs:69-85 | For every change: a write confirmed but taking effect after the call is reported as a failure and stays, although the old entry was written back |
| `SettingsNetwork.SensitivityChanges` | addon/vistoda_blink_engine/src/blink_settings_write.rs:33-85 | Concretely: a sensitivity of 5 to become 6, with the three networks that strand it |
| `SettingsOutcome.LastWriteDecides` | addon/vistoda_blink_engine/src/blink_settings_write.rs:69-85 | After any order of the change and the old entry the document reads as the last of them left it |
| `MotionTracker.StoredAgrees` | addon/vistoda_blink_engine/src/motion.rs:118-139 | A bounded cache keeps map and queue in agreement: no duplicates, never over its limit, oldest out first |
| `MotionTracker.HoldsLastArrivals` | addon/vistoda_blink_engine/src/motion.rs:118-139 | After any stores a cache holds exactly the last `limit` ids that were new to it, each with the value stored last |
| `MotionTracker.LastThumbnailsAreKept` | addon/vistoda_blink_engine/src/motion.rs:118-131 | Over any events: kept are the thumbnails of the last 256 ids to get one, each the last one published |
| `MotionTracker.AbsorbKeepsValid` | addon/vistoda_blink_engine/src/motion.rs:111-170 | Any batches keep remembered ids (1024) and thumbnails (256) in agreement with their queues |
| `MotionTracker.RemembersLastNewOnes` | addon/vistoda_blink_engine/src/motion.rs:133-139 | The remembered ids are exactly the last 1024 that were taken as new |
| `MotionTracker.NewAgainOnlyAfterMany` | addon/vistoda_blink_engine/src/motion.rs:130-139 | An id taken as new a second time was followed by at least 1024 other new ones |
| `MotionTracker.CamerasShowTheLatest` | addon/vistoda_blink_engine/src/motion.rs:140-161 | If ids fix camera and time, every camera shows its latest event ever absorbed |
| `MotionTracker.DeviceOrNameIsShown` | addon/vistoda_blink_engine/src/motion.rs:141-161 | Over any events with distinct ids: the entry of a key shows an event iff its device id, or without one its name, is that key; the latest such event is shown, of equally late ones the first |
| `MotionTracker.LaterTimeOfSeenIdIsLost` | addon/vistoda_blink_engine/src/motion.rs:130-132 | Without that a later time under a remembered id is lost |
| `MotionTracker.NewOnlyAfterWarmUp` | addon/vistoda_blink_engine/src/motion.rs:111-170 | Nothing is reported new by the first poll; later exactly the unseen events |
| `MotionTracker.OneAbsorbedKeepsValid` | addon/vistoda_blink_engine/src/motion.rs:117-164 | One event keeps the caches valid, and without a visible change leaves the view alone |
| `MotionTracker.MotionCache.AddThumbnail` | addon/vistoda_blink_engine/src/motion.rs:118-129 | The in-place thumbnail cache is the specified one |
| `MotionTracker.MotionCache.Remember` | addon/vistoda_blink_engine/src/motion.rs:130-139 | The in-place set and queue of ids are the specified cache |
| `MotionTracker.MotionCache.AbsorbEvent` | addon/vistoda_blink_engine/src/motion.rs:117-164 | One turn of the loop is the specified step, with the right `changed` flag |
| `MotionTracker.MotionCache.AbsorbEvents` | addon/vistoda_blink_engine/src/motion.rs:111-170 | The loop is the specified absorption; the sequence is raised iff some event changes what pollers see, and by one |
| `MotionTracker.MotionCache.StoreStill` | addon/vistoda_blink_engine/src/motion_still.rs:87-102 | The still cache keeps the sixteen newest and always raises the sequence |
| `MotionFeed.ResponseMissesNothing` | addon/vistoda_blink_engine/src/api_motion.rs:71-103 | Over all interleavings: a response numbered n reflects every change announced with a number up to n |
| `MotionFeed.NobodySleepsThroughAChange` | addon/vistoda_blink_engine/src/motion.rs:89-103 | When no announcement is half done, a reader still asleep has seen the current number |
| `MotionFeed.SleeperLacksNothing` | addon/vistoda_blink_engine/src/motion.rs:89-103 | A poller that passes on the number of its last response and sleeps lacks no announced change |
| `MotionFeed.PollWakesIff` | addon/vistoda_blink_engine/src/motion.rs:94-103 | Over every interleaving with others: a poll is awake before its time is up iff the number differs from its own when it compares, or somebody notifies after it armed; otherwise it sleeps on |
| `MotionFeed.AwakeIsAnswered` | addon/vistoda_blink_engine/src/api_motion.rs:71-103 | Awake, it is answered with the number of that moment and the data of a later one |
| `MotionFeed.NumbersCountChanges` | addon/vistoda_blink_engine/src/motion.rs:89-93 | In every run each number up to the current one was given to exactly one announced change |
| `MotionFeed.RunKeepsInv` | addon/vistoda_blink_engine/src/motion.rs:89-103 | The invariant behind these, over any run of writers and readers |
| `ZoneMasks.CellOfBit` | addon/vistoda_blink_engine/src/blink_zone_model.rs:133-145 | Every cell is one bit of one mask, and its coordinates can be read back |
| `ZoneMasks.BitOfCell` | addon/vistoda_blink_engine/src/blink_zone_model.rs:133-145 | Every bit of every mask is one cell |
| `ZoneMasks.MaskedMeans` | addon/vistoda_blink_engine/src/blink_zone_model.rs:133-145 | In bits and coordinates: bit 4 (y mod 3) + x mod 4 of mask 5 (y / 3) + x / 4 stays set iff it was and (x, y) is in no zone |
| `ZoneMasks.ApplyPrivacy` | addon/vistoda_blink_engine/src/blink_zone_model.rs:133-145 | The nested loops stay in range and leave a cell on iff it was on and lies in no zone |
| `ZoneMasks.MaskingIsIdempotent` | addon/vistoda_blink_engine/src/blink_zone_model.rs:133-145 | Masking twice is masking once |
| `ZoneMasks.ValidatedUpdate` | addon/vistoda_blink_engine/src/blink_zone_model.rs:86-131 | Accepts iff the masks and zones are well formed, allowed, and leave some cell on |
| `ZoneMasks.AcceptsMeans` | addon/vistoda_blink_engine/src/blink_zone_model.rs:86-131 | Accepted iff there are 25 masks of 12 bits, at most two zones, none empty, none beyond 20 by 15, zones allowed or unchanged, and some cell is on outside them |
| `ZoneMasks.AcceptedIsAFixpoint` | addon/vistoda_blink_engine/src/blink_zone_model.rs:86-115 | What was accepted is accepted again and comes out unchanged |
| `ZoneMasks.AllZeroIff` | addon/vistoda_blink_engine/src/blink_zone_model.rs:100-102 | The all-zero test finds exactly the grids without a cell left |
| `ZoneMasks.UpdateBody` | addon/vistoda_blink_engine/src/blink_zone_model.rs:157-180 | Bit i < 25 is set iff mask i has a cell on, bit 30 iff some mask is not full, every other bit is the provider's |
| `ZoneMasks.FullGridIsUnrestricted` | addon/vistoda_blink_engine/src/blink_zone_model.rs:170-175 | Bit 30 is clear iff every cell is on |
| `AliasStore.Unique` | addon/vistoda_blink_engine/src/alias_store.rs:79-93 | The search ends within one try more than there are names in use, returns the first free name, valid below a thousand million names |
| `AliasStore.Pigeonhole` | addon/vistoda_blink_engine/src/alias_store.rs:85-92 | As many distinct numbered names as names in use cannot all be taken |
| `AliasStore.CandidatesDiffer` | addon/vistoda_blink_engine/src/alias_store.rs:87 | Numbered names with different numbers differ |
| `AliasStore.ValidIff` | addon/vistoda_blink_engine/src/alias_store.rs:71-77 | An alias is valid iff it has 1 to 64 characters, each a small letter, digit, hyphen or underscore |
| `AliasStore.Store.Load` | addon/vistoda_blink_engine/src/alias_store.rs:17-54 | Succeeds iff the file can be read and parsed, every alias is valid and no two cameras share one, with the error of each failure |
| `AliasStore.Store.Reconcile` | addon/vistoda_blink_engine/src/alias_store.rs:17-47 | One call by itself: present and remembered cameras have distinct aliases, remembered ones never change, what is saved loads again, and it fails only for the stated reasons |
| `AliasRaces.NeverLosesIff` | addon/vistoda_blink_engine/src/blink_refresh.rs:44 | Any number of refreshes at once: no step of a run loses or changes a stored alias iff each save finds every stored alias either loaded by its own refresh or just given to the same listed camera |
| `AliasRaces.UndisturbedNeverLoses` | addon/vistoda_blink_engine/src/alias_store.rs:17-47 | Refreshes of whose saves none falls between the load and the save of another never change an alias |
| `AliasRaces.TwoAtOnceLoseAnAlias` | addon/vistoda_blink_engine/src/blink_refresh.rs:44 | Concretely: two refreshes load before either saves; the alias saved first is lost to another camera, and every later reconciliation gives its camera a different one |
| `AliasStore.AgainIsTheSame` | addon/vistoda_blink_engine/src/alias_store.rs:17-47 | Reconciling the same cameras again changes nothing |
| `AliasStore.ExtendsOneMore` | addon/vistoda_blink_engine/src/alias_store.rs:29-42 | Adding one camera keeps aliases injective and remembered ones unchanged |

## Left out

- HTTP and websocket routes, authentication, TLS pins, OAuth sign-in pages, URL building, Home Assistant entities and
  services: input and output and thin wrappers.
- AES-GCM and SHA-256: the sealed store is a cell, digests stand for their content.
- FFmpeg, sockets and the tokio scheduler: nondeterministic outcomes and interleavings. A timed-out write is a write
  that may have sent any part of its bytes; the wall-clock value of a timeout is not modelled.
- Wrap-around of 64-bit epochs, generations, sequences and spool sums: natural numbers. The 32-bit packet, keepalive and
  tick counters do wrap.
- `set_session_clock`, the hub of live subscribers, WebRTC signalling, pagination, poll backoff, USB and storage state,
  program schedules: short case analyses.
- The live event loop ends with its list of wake-ups instead of asking whether the publisher still has subscribers.
- RecordingSpool.SpoolIsSafe: fixes `Limits.cameras` for a run, while the provider's list changes between refreshes; it
  stands for all cameras listed during the run, and a start that is refused because its camera is not listed at the
  moment takes no step.
- AliasRaces.NeverLosesIff: a save replaces the file at once; two saves that write the same temporary file at the same
  time are not modelled.
- Recording: power loss that reorders completed file effects; a file operation cancelled by a timeout takes effect or
  does not, at the moment of cancellation; request times are ordered values rather than text; the list and descriptor
  queries.
- OAuth: cancelling an import between taking the old session and installing the new one; the outcome of an import's own
  refresh is nondeterministic; the growth of the retry delay; the account checks before an import.
- The settings plan: floats, arrays and objects as values, list entries that are not objects, and fields without a text
  key (the engine sends none).
- `initialize_temperature_thresholds`: a one-off write of both thresholds with a read-back.
- JSON text itself: values are a datatype, a float only as integral or not. Trimming uses the Unicode white-space
  characters, control characters are the C0 and C1 ranges.
- The provider's representation of the alert switch after it is toggled: assumed to stay boolean or numeric as it was.
- Zone masks: a 16- or 64-bit word is the set of its one bits rather than a bit vector; parsing the provider's document.
- Motion: the 90-second motion window and parsing of times; event times are ordered values; capture of stills.
- AliasStore.Unique: the saturating 64-bit suffix, because the search ends before it matters.
- AudioLease.RevocationIsFinal: lets epochs grow without bound, because fewer than 2^64 steps are assumed.
- OAuthSession.SpentTokensAreNeverOffered: covers imports only of tokens that are neither spent nor in use, because
  `OAuthSession.StaleImportIsOffered` and `OAuthSession.ImportOfTokenInUseIsOffered` show the code offers such a token
  again. An exchange whose answer is lost counts as refused, because the client cannot know better.
- OAuthDisk.FileAgreesOrRetryIsAlive: excludes imports, because `OAuthDisk.RefusedImportLosesTheFile` shows they break
  it. A file operation that is under way when its task is dropped takes effect then or not at all.
- AudioLease.SubmitIffAuthorised: the queue of a live connection is open; the answer for a receiver that is gone while
  its sender is still registered is not modelled.
- SettingsBackup.ApplyUndoneIff: says of a camera whether it has its old values if that camera is left alone after its
  own restore; the others may meet any fault, also in the rollback. A cancelled operation is one whose call escapes.
- SettingsFaults.OneFaultIff: takes cameras that were willing to be restored and taken back; cameras that are not are
  covered by `SettingsBackup.ApplyUndoneIff`.
- The settings backup as stored: capturing, naming, matching of cameras to a backup and the limit of 25.
- SettingsEngine: the 64-bit overflow check of the distance between thresholds, which only a stored threshold near the
  64-bit limit would meet.
- SettingsOutcome.ListingIsOldOrNew: covers calls that start with no write still on its way, and no other writer during
  the call; the refresh of the cached state is one request that may fail.
- MotionTracker.CamerasShowTheLatest: requires that ids identify events, because
  `MotionTracker.LaterTimeOfSeenIdIsLost` shows what happens otherwise.
