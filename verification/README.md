# Verified model of the media and session core

This project models, in Dafny, the part of the gateway that turns a call's audio into recognition sessions and that
brings every call to one orderly end, and proves properties of it over all inputs, runs and interleavings.

- The voice activity detector (`VadModel`, `Vad`) is a four-phase automaton with three audio buffers, two sliding
  activity windows, an adaptive noise floor, a scorer that may overrule a start or an end, and a cut at a maximum
  length. `VadInvariant` ties its parts together; `VadRuns`, `VadCap` and `VadTiming` prove grammar, order, losslessness,
  accounting, the cap and bounded response, `VadSilence` when silence can end a segment, `VadPreRoll` what a
  segment opens with, `VadNoise` what the noise floor does. `VadDecisions` and `VadHistory` say exactly when a segment
  opens, pauses and ends, `VadOptions` what the options mean. `Windows` is the theory of the sliding windows and
  `Loudness` says when a frame is as loud as its samples.
- `Streams`, `Chains`, `Asr`, `Pipeline` and `MediaStream` are the chain the detector drives: packet by packet
  processing is stream composition, and each speech segment gets exactly one recogniser session. `AsrResults` adds the
  forwarders that emit results concurrently and says when one quits with results unread, `Reopening` and `StreamRace`
  what pushes that race with a close can do, `AsrReports` the errors that are reported.
- `SessionModel`, `Sessions` and `CloseProtocol` are the close protocol of one session: each locked section is one atomic
  step, and calling the close function and closing the done channel are later steps of their own. `CloseInfos` is the
  first-wins merge of reasons. `Managers`, `Orders`, `Registry` and `Histories` are the session manager and its
  listing, `Serve` the handler of one call, `ServeRecords` what its record says, `Router` and `TrackIds` the commands
  and the track ids.
- `TtsQueue` is the bounded synthesis stream with producers, one consumer and closers as separate steps.
- `Codec`, `MuLaw`, `ALaw` and `Inbound` are resampling and G.711 companding (section 3 of ITU-T G.711).
- `Media` and `Subsequences` hold shared vocabulary.

How it is modelled. Objects that the program updates in place are classes; every method is proved equal to a function on
values, and the properties are proved about runs of these functions. A frame carries its loudness, the scorer's answer
should it be asked, and the clock; a recogniser call carries the provider's errors: none of these is restricted. Runs of
the detector are proved over any step function that conforms to the invariant, and `DetectorConforms` shows that the
detector does. Ratios are compared by cross-multiplication: the program divides two integers in floating point and
compares with 0.6, 0.2 or 0.4, the nearest floating-point numbers to those fractions, and a correctly rounded quotient
compares with them as the exact one does for durations of any realistic size. Durations, sizes and clocks are unbounded
integers; the result index wraps at 2^32 and the track counter at 2^64, as in the program. Every lemma switches
automatic induction off, so that each proof rests on its own body alone.

What the proofs brought out, besides the properties that hold:

- A window is full only when its entries sum exactly to its limit. Silence can end a segment of frames of one length if
  and only if that length divides both windows (`SilenceEndsIff`); with frames of 30 ms and default options only the
  maximum length ends one (`ThirtyMsFrames`).
- A veto of the scorer at the end of speech skips the check of the maximum length: the cap holds throughout if and only
  if no veto returns a tail that reaches it (`CapIff`, `CapFailsUnderVeto`).
- A segment opens with all frames of its candidate phase if and only if they together fit the start window; otherwise
  the first of them are missing between pre-roll and start buffer (`OpensWholeIff`, `FrameLost`).
- A push that passed the test before the stream was closed may open a recogniser session that nothing closes; exactly
  when is `LeftOpenIff`, instances are `LatePushOpens` and `CloseBetweenStages`.
- Two live sessions with one id: cleaning up the first hides the second (`ListedExactly`, `SharedIdHidesALiveSession`).
- A chunk can be accepted and never read if and only if its producer was past the first check when the stream was closed
  (`NeverMissesIff`, `LateChunkMissed`, `LateChunksBounded`).
- A-law companding is close only for a few samples (`CloseIff`, `NotClose`), and encoding inverts decoding for six codes
  only (`EncodeDecodeIff`).
- A comment in `internal/adapter/inbound/http/call_handler.go:183` says a session is listed only after it is active; the
  code lists it from its creation (`ListedFromCreation`), and the model follows the code.

## Model

| member | source | states |
|---|---|---|
| VadRuns.DetectorTraces | internal/app/media/processor/vad.go:211-538 | for every option set in energy or hybrid mode and every run of audio frames: the events cycle speaking, silence, eou; the packets are (audio+ end)* audio* with an open tail iff a segment is open; emitted audio followed by what is held back is the input with frames left out; the open segment's ledger balances |
| VadHistory.EouIff | internal/app/media/processor/vad.go:321-491 | after any run, a frame brings an eou if and only if speech reaches the maximum, a pause that turns out to be speech makes it do so, or the pause since candidate end was entered lasts the silence padding with at most one fifth of speech in a full window and no consulted scorer at or above its threshold |
| VadHistory.SpeakingIff | internal/app/media/processor/vad.go:296-409 | after any run, a frame brings a speaking event if and only if no segment is open, the marks heard since the candidate phase began fill the start window exactly with at least three fifths of speech, and no consulted scorer answers below its threshold |
| VadHistory.EouAfterPause | internal/app/media/processor/vad.go:337-358 | an utterance below the maximum is not split by a pause shorter than the silence padding |
| VadHistory.HistoryReflected | internal/app/media/processor/vad.go:132-152 | over any run the windows the decisions look at are the fitted suffixes of the marks heard, and the audio held back is that of the frames since candidate end was entered |
| VadDecisions.OpensIff | internal/app/media/processor/vad.go:296-409 | from any good state without a segment: exactly when a frame opens one, when it leaves the detector idle, and what the scorer is asked; a refused start hands on nothing |
| VadDecisions.PausesIff | internal/app/media/processor/vad.go:321-335 | exactly when speech pauses, goes on, or is cut |
| VadDecisions.EndsIff | internal/app/media/processor/vad.go:337-452 | exactly when a pause ends the segment, turns back into speech, or goes on, and what the scorer is asked |
| VadDecisions.EndHandsOn | internal/app/media/processor/vad.go:411-470 | a cut hands on all audio held back, any other end the shortest first part that lasts the tail padding |
| VadDecisions.AskedIsHandedOn | internal/app/media/processor/vad.go:360-431 | the scorer is asked about exactly the audio that the call hands on if the scorer lets it through |
| VadDecisions.NotLookedAt | internal/app/media/processor/vad.go:260-279 | end marks, and in passthrough mode audio, go through unchanged; empty audio and, when detecting, audio too short to measure go nowhere; nothing changes |
| VadOptions.OptionSets | internal/app/media/processor/vad.go:211-245 | each option sets its own parameter and no other, but for the silence padding, which bounds the end window too |
| VadOptions.Defaults | internal/app/media/processor/vad.go:18-38 | the parameters without options |
| VadOptions.NotPositiveIsUnset | internal/app/media/processor/vad.go:580-611 | an option that is not positive counts as absent |
| VadRuns.EventGrammar | internal/app/media/processor/vad.go:296-470 | the event trace is a prefix of (speaking silence eou)*, one event into a round iff a segment is open |
| VadRuns.PacketTraceGrammar | internal/app/media/processor/vad.go:296-470 | the packet trace is (audio+ end)* audio*, with audio behind the last end mark iff a segment is open |
| VadRuns.EndMarkIffEou | internal/app/media/processor/vad.go:411-470 | a result carries an end mark iff it carries an eou; the mark is its last packet and never its only one |
| VadRuns.EventsCountSegments | internal/app/media/processor/vad.go:296-470 | three events per closed group of packets and one more while a segment is open |
| VadRuns.GrammarGroups | internal/app/media/processor/vad.go:296-470 | in such a trace no group of audio between end marks is empty |
| VadRuns.EmittedNonEmpty | internal/app/media/processor/vad.go:260-294 | no emitted audio packet is empty |
| VadRuns.EmittedInOrder | internal/app/media/processor/vad.go:296-452 | emitted audio, then everything still buffered, is a subsequence of the input: same bytes, same order, none twice |
| VadRuns.EmittedIsSubsequenceOfInput | internal/app/media/processor/vad.go:296-452 | the emitted audio alone is a subsequence of the input |
| VadRuns.LedgerBalances | internal/app/media/processor/vad.go:321-452 | inside a segment, audio emitted since the end of the pre-roll plus the tail buffer is exactly the start buffer at confirmation and every measured frame since; segmentDurationMs is the length of that emitted audio, and 0 outside; segmentStartMs is the recorded beginning |
| VadRuns.ClosedSegment | internal/app/media/processor/vad.go:411-470 | a segment that closes consists of its pre-roll and a first part of what was due, at least one frame more than already emitted, and its two closing events carry the recorded start and the clock |
| VadInvariant.StepFacts | internal/app/media/processor/vad.go:260-470 | one call keeps the invariant that ties state, buffers, windows and counters, and has one of four shapes: waits, opens, carries on, ends |
| VadInvariant.DetectorConforms | internal/app/media/processor/vad.go:260-470 | every step of the detector from a good state is good and well shaped |
| VadInvariant.DerivedParams | internal/app/media/processor/vad.go:211-245 | whatever the options, the derived parameters satisfy what the proofs need, and the initial state is good |
| VadInvariant.LockstepPushed | internal/app/media/processor/vad.go:296-319 | start buffer and start activity keep entries of equal durations |
| VadInvariant.RejectFacts | internal/app/media/processor/vad.go:364-392 | rejecting a start keeps the invariant, and the new pre-roll is the old pre-roll and start buffer with frames left out |
| VadInvariant.ConfirmStartFacts | internal/app/media/processor/vad.go:360-409 | the start decision keeps the invariant; accepting hands on pre-roll then start buffer and one speaking event, otherwise nothing is handed on and nothing new is held |
| VadInvariant.WholeTail | internal/app/media/processor/vad.go:337-358 | returning the tail to speech, with or without the cut at the maximum length, hands on the whole tail in order |
| VadInvariant.ConfirmEndFacts | internal/app/media/processor/vad.go:411-452 | confirming an end hands on a non-empty first part of the tail and the end mark, or under a veto the whole tail |
| VadCap.CapStep | internal/app/media/processor/vad.go:321-470 | a step from below the maximum stays below it if and only if it is not a veto whose returned tail reaches the maximum |
| VadCap.CapIff | internal/app/media/processor/vad.go:321-470 | the open segment is below maxSegmentMs after each call of a run if and only if no call of it is a veto whose returned tail reaches the maximum |
| VadCap.CapHolds | internal/app/media/processor/vad.go:321-470 | in particular over any run without a veto |
| VadCap.CapHoldsWithoutScorer | internal/app/media/processor/vad.go:360-470 | without a consulted scorer the cap always holds |
| VadCap.CapFailsUnderVeto | internal/app/media/processor/vad.go:411-452 | a concrete run of four frames, each as loud as its samples are, in which a veto leaves a segment of 1110 ms open although the maximum is 1000 ms |
| VadTiming.SpeechAnswered | internal/app/media/processor/vad.go:296-319 | with frames of d ms, d dividing the start window: after any such run without an open segment, startWindowMs/d loud accepted frames bring a speaking event |
| VadTiming.StartWithin | internal/app/media/processor/vad.go:360-409 | the same bound counted from the loud frames already at the end of the start window |
| VadTiming.SilenceAnswered | internal/app/media/processor/vad.go:321-358 | with d dividing the end window: after any such run with an open segment, endWindowMs/d + ceil(silencePaddingMs/d) frames below minKeepRMS bring an eou whatever the noise floor |
| VadTiming.EndWithinPatience | internal/app/media/processor/vad.go:337-452 | the same bound as a measure of the state that every quiet frame lowers |
| VadTiming.StartReachableIff | internal/app/media/processor/vad.go:360-370 | a segment can be opened by frames of d ms if and only if d divides the start window; and if and only if repeating one loud frame of d ms opens one |
| VadTiming.NeverStarts | internal/app/media/processor/vad.go:360-370 | if d does not divide the start window no run of such frames ever emits anything |
| VadTiming.NeverCandidateEnd | internal/app/media/processor/vad.go:472-477 | if d does not divide the end window candidate end is never entered |
| VadTiming.EveryEouIsACut | internal/app/media/processor/vad.go:454-491 | and then every eou is the cut at the maximum segment length |
| VadTiming.ThirtyMsFrames | internal/app/media/processor/vad.go:211-245 | with the default silence padding, frames of 30 ms can open segments, never come into candidate end, and every eou of theirs is the cut |
| VadSilence.SilenceEndsIff | internal/app/media/processor/vad.go:337-358 | frames of d ms can end a segment by silence, and can come into candidate end at all, if and only if d divides both windows; and if and only if repeating a loud frame and then a quiet one does it |
| VadSilence.LoudThenQuiet | internal/app/media/processor/vad.go:296-358 | one loud frame repeated and then one quiet one repeated, which the scorer does not overrule, is such a run |
| VadSilence.QuietEntersEnd | internal/app/media/processor/vad.go:321-335 | from speech with room below the maximum, repeating a quiet frame leads to candidate end |
| VadSilence.QuietEnds | internal/app/media/processor/vad.go:337-452 | from candidate end, repeating a quiet frame brings the end decision and its eou |
| VadPreRoll.OpensWholeIff | internal/app/media/processor/vad.go:296-409 | a segment opens with the pre-roll and a last part of the candidate phase's frames; nothing of the phase is missing if and only if its frames together fit the start window |
| VadPreRoll.HeldInPhase | internal/app/media/processor/vad.go:311-319 | during a candidate phase the pre-roll stays and the start buffer is the fitted suffix of the phase's frames |
| VadPreRoll.PreRollHolds | internal/app/media/processor/vad.go:296-392 | whenever no segment is open, the pre-roll is the fitted suffix of what it was offered since the last segment: the frames that left the detector idle, and at each rejected start what the start buffer still held |
| VadPreRoll.FrameLost | internal/app/media/processor/vad.go:66-82 | a run of three frames, each as loud as its samples are, whose segment opens with the first and the third |
| VadTiming.SteadyRun | internal/app/media/processor/vad.go:296-358 | frames of one length keep both windows uniform, and candidate end keeps its window exactly full and not too active |
| VadTiming.TrailingPushed | internal/app/media/processor/vad.go:132-152 | a push lengthens the run of equal marks at the end of a window by one, up to the whole window |
| VadNoise.NoiseStep | internal/app/media/processor/vad.go:493-515 | a measured frame that is not loud in the current phase moves the noise floor a tenth of the way to its loudness, or sets it; no other frame moves it |
| VadNoise.NoiseStaysWithin | internal/app/media/processor/vad.go:508-515 | over any run the noise floor stays within the range of loudness heard |
| VadNoise.LouderSpeechAnswered | internal/app/media/processor/vad.go:296-319 | after any frames up to a given loudness, frames louder by the enter ratio that fill the start window bring a speaking event, whatever the noise floor came to |
| Loudness.SquareSum | internal/app/media/processor/vad.go:551-567 | the loop sums the squares of all whole samples and counts them |
| Loudness.LoudnessUnique | internal/app/media/processor/vad.go:551-567 | the loudness of a payload, characterised by its square, is determined by the payload |
| Loudness.SoundIsTrue | internal/app/media/processor/vad.go:551-567 | a tone of constant level has that level as its loudness, and silence has 0 |
| Windows.PushAllKeepsLongestSuffix | internal/app/media/processor/vad.go:66-94 | any push history leaves the fitted suffix of old contents and history |
| Windows.FitIsLongest | internal/app/media/processor/vad.go:66-82 | which fits the limit, and no longer suffix does |
| Windows.FitThenFit | internal/app/media/processor/vad.go:66-94 | evicting early loses nothing: the same window results as from fitting the whole at once |
| Windows.ExactFill | internal/app/media/processor/vad.go:66-82 | n pushes of d ms leave min(n, limit/d) entries and d times that many milliseconds |
| Windows.FullIffDivides | internal/app/media/processor/vad.go:132-152 | a window of d ms entries is full if and only if d divides the limit and enough were pushed |
| Windows.LeadIsShortestPrefix | internal/app/media/processor/vad.go:104-118 | the padding kept at a segment's end is the shortest prefix that reaches the padding length, or all |
| Windows.BufferedAudio.Push | internal/app/media/processor/vad.go:66-82 | the eviction loop leaves exactly the fitted suffix; empty payloads and durations are ignored |
| Windows.BufferedAudio.Reset | internal/app/media/processor/vad.go:84-88 | empties the buffer |
| Windows.BufferedAudio.Append | internal/app/media/processor/vad.go:90-94 | appending equals pushing the other buffer's frames in order |
| Windows.BufferedAudio.Packets | internal/app/media/processor/vad.go:96-102 | the contents as packets, in order |
| Windows.BufferedAudio.PrefixPackets | internal/app/media/processor/vad.go:104-118 | the loop yields the packets of the shortest prefix that reaches the length |
| Windows.BufferedAudio.Bytes | internal/app/media/processor/vad.go:120-130 | the concatenated payloads |
| Windows.ActivityWindow.Push | internal/app/media/processor/vad.go:132-152 | the eviction loop leaves the fitted suffix and keeps both sums exact |
| Windows.ActivityWindow.Reset | internal/app/media/processor/vad.go:154-158 | empties the window |
| Windows.ActivityWindow.CopyFrom | internal/app/media/processor/vad.go:160-166 | takes over the other window's entries and sums |
| Vad.VAD.constructor | internal/app/media/processor/vad.go:211-245 | a new detector has the derived parameters and the initial state |
| Vad.VAD.Process | internal/app/media/processor/vad.go:260-294 | the object's new state, packets, events and scorer question are those of the step function |
| Vad.VAD.ProcessIdle | internal/app/media/processor/vad.go:296-309 | idle: noise and pre-roll, or a candidate start |
| Vad.VAD.ProcessCandidateStart | internal/app/media/processor/vad.go:311-319 | candidate start: both start windows grow, then the decision |
| Vad.VAD.ProcessSpeaking | internal/app/media/processor/vad.go:321-335 | speaking: the frame is handed on or starts the tail |
| Vad.VAD.ProcessCandidateEnd | internal/app/media/processor/vad.go:337-358 | candidate end: resume, wait, or confirm |
| Vad.VAD.MaybeConfirmStart | internal/app/media/processor/vad.go:360-409 | the start decision with the scorer's answer |
| Vad.VAD.ConfirmEnd | internal/app/media/processor/vad.go:411-452 | the end decision with the scorer's answer |
| Vad.VAD.MaybeForceSegmentEnd | internal/app/media/processor/vad.go:454-470 | the cut at the maximum length |
| Vad.VAD.ObserveNoise | internal/app/media/processor/vad.go:508-515 | the noise floor's exponential smoothing |
| Vad.VAD.ResetToIdle | internal/app/media/processor/vad.go:529-538 | everything but the noise floor is reset |
| Chains.ChainIsStreamComposition | internal/app/media/processor/chain.go:39-58 | feeding packets one by one leaves every stage with the state and the output of running it alone on everything the stage before it handed on |
| Chains.ThroughConcat | internal/app/media/processor/chain.go:39-58 | a stream may be cut anywhere |
| Chains.Chain.Process | internal/app/media/processor/chain.go:39-58 | the nested loops, early exit included, equal sending the packet through all stages |
| Chains.Chain.FeedStage | internal/app/media/processor/chain.go:42-53 | the inner loop equals draining one stage |
| Chains.Chain.Close | internal/app/media/processor/chain.go:62-77 | every closable stage is closed in order and the first error is returned |
| Chains.FirstErrorReported | internal/app/media/processor/chain.go:62-77 | every stage with a closing action takes it, and the error is that of the first stage that reports one |
| Asr.RecogniserIsOrderly | internal/app/media/processor/asr.go:43-125 | whatever packets and provider errors: at most the last session is open, all others are closed exactly once, and each was offered something |
| Asr.SessionPerGroup | internal/app/media/processor/asr.go:43-125 | while NewSession succeeds the sessions are exactly the non-empty groups of audio between end marks, each offered its group in order |
| Asr.ShutClosesAll | internal/app/media/processor/asr.go:84-96 | closing the stage leaves every session closed exactly once, and closing again changes nothing |
| Asr.ASR.Process | internal/app/media/processor/asr.go:43-82 | the object's state and events are those of the step function, in segmented mode and in the silence-counting mode |
| Asr.ASR.StopActiveSession | internal/app/media/processor/asr.go:115-125 | closes the current session if there is one and rearms the first-result event |
| Asr.ASR.StampResult | internal/app/media/processor/asr.go:148-195 | the locked part of emitting a result: first-result flag and the next 32-bit index |
| Asr.ASR.Close | internal/app/media/processor/asr.go:84-96 | closes the current session the first time only, and returns its close error then |
| Asr.IsSilentPCM16 | internal/app/media/processor/asr.go:197-208 | the loop decides whether all whole samples are within the level |
| AsrReports.ErrorsReported | internal/app/media/processor/asr.go:43-125 | over any run each error of the provider that a call meets, by conditions read off packets and errors alone, is reported by exactly one event, in order, and nothing else is |
| AsrReports.RefusalReported | internal/app/media/processor/asr.go:98-113 | a fresh stage that is refused its first session says so |
| AsrReports.FlagTakenDownIff | internal/app/media/processor/asr.go:115-125 | the first-result flag is taken down by exactly the end marks and the packets that end the speech of an open session |
| AsrReports.SilentIff | internal/app/media/processor/asr.go:197-208 | silent means no sample further than 96 from zero |
| AsrReports.EighthSilenceCloses | internal/app/media/processor/asr.go:53-66 | without segments a session stays open for seven silent packets and is closed by the eighth |
| Reopening.ReopensIff | internal/app/media/processor/asr.go:43-125 | a closed stage ends up with an open session, which closing again does not close, if and only if it had not failed, was refused no session since, and the packets it still got end in unsettled speech; in both modes |
| Reopening.LatePacketReopens | internal/app/media/processor/asr.go:98-113 | a fresh stage that is closed and then given one packet of speech is an instance |
| AsrResults.EmittedInQueueOrder | internal/app/media/processor/asr.go:129-195 | over every interleaving, the results emitted for a session are a prefix of its result queue |
| AsrResults.AllEmittedIff | internal/app/media/processor/asr.go:129-146 | a forwarder that quits has emitted everything ever delivered to its session if and only if its queue was empty when it quit and nothing is delivered later |
| AsrResults.IndicesGivenOnce | internal/app/media/processor/asr.go:148-195 | below the 32-bit wrap the indices given out are exactly 1..n, each to one forwarder |
| AsrResults.IndicesNeverRepeat | internal/app/media/processor/asr.go:148-195 | no two emitted results share an index, whichever sessions they belong to |
| AsrResults.FewMetrics | internal/app/media/processor/asr.go:115-195 | at most one first-result metrics event plus one per stop |
| AsrResults.FirstResultIff | internal/app/media/processor/asr.go:148-165 | a result carries a metrics event if and only if it is the first stamped since the last stop |
| AsrResults.IndexCounts | internal/app/media/processor/asr.go:166-168 | the index counts the results stamped, modulo 2^32 |
| Pipeline.ChainIsDetectorThenRecogniser | internal/adapter/inbound/http/call_handler.go:376-395 | denoise and recorder pass packets on, so the chain is the detector followed by the recogniser on its output |
| Pipeline.EventsReturnedOnce | internal/app/media/processor/chain.go:39-58 | together the pushes return every event of the detector and one event for each error the recogniser meets, each exactly once, and no other |
| Pipeline.PushReports | internal/app/media/processor/chain.go:39-58 | one push returns the detector's events and then the recogniser's |
| Pipeline.RecorderCounts | internal/app/media/processor/recorder.go:20-27 | the recorder counts the bytes of the audio |
| Pipeline.SessionPerSegment | internal/app/media/processor/asr.go:43-125 | in a segmented mode and while NewSession succeeds: the k-th session is offered exactly the audio of the detector's k-th segment and closed at its end; at most one is open, and iff a segment is |
| MediaStream.Stream.Push | internal/app/media/stream/stream.go:25-34 | an open stream hands the packet to the chain; a closed one does nothing |
| MediaStream.Stream.Close | internal/app/media/stream/stream.go:37-45 | marks the stream closed and closes the chain |
| MediaStream.PushesFeedTheChain | internal/app/media/stream/stream.go:25-34 | the pushes of an open stream are the chain fed packet by packet |
| MediaStream.EverySessionClosedOnce | internal/app/media/stream/stream.go:25-45 | after a sequential Close every session ever opened has been closed exactly once, and nothing later changes anything or opens a session, whatever the provider's errors |
| StreamRace.LeftOpenIff | internal/app/media/stream/stream.go:25-45 | over every interleaving of pushes and closes, a push being a test, a step of the detector and one step of the recogniser for each packet it hands on: after the recogniser is closed only pushes that were past the test reach the detector, and a session is left open if and only if what the recogniser took since ends in unsettled speech, on a stage that had not failed and was refused no session |
| StreamRace.ClosedForGood | internal/app/media/stream/stream.go:25-45 | if the recogniser took nothing since it was closed, no session is open and every session was closed exactly once |
| StreamRace.LatePushOpens | internal/app/media/stream/stream.go:25-45 | without segments, one push past the test is enough to open a session on the closed stream |
| StreamRace.CloseBetweenStages | internal/app/media/stream/stream.go:25-45 | so is one push that the close catches between the detector and the recogniser |
| StreamRace.UninterruptedPush | internal/app/media/stream/stream.go:25-34 | the steps of one push, none of another thread in between, leave detector and recogniser as one call of the chain does |
| MediaStream.SessionsAreSegments | internal/app/media/stream/stream.go:25-45 | a whole call: after Close the recogniser sessions are exactly the detector's segments in order, each offered exactly its audio and closed once |
| CloseProtocol.CloseFunctionExactlyOnce | internal/app/session/session.go:151-208 | over every interleaving at most one close function is called, rebinding or not; once a close is requested and a function bound, exactly one call is made or owed |
| CloseProtocol.CallsTheBoundFunction | internal/app/session/session.go:151-208 | and it is the function bound when a close is requested, or bound later to a session to be closed, whichever comes first; rebinding changes nothing |
| CloseProtocol.LifeFollows | internal/app/session/session.go:116-234 | over every interleaving: until something is submitted the life is the stage reached last, then Closed if finalized, Failed if the first info says error, otherwise Closing |
| CloseProtocol.DoneClosedOnce | internal/app/session/session.go:212-234 | the done channel is closed at most once, and is given up for closing iff the state is Closed |
| CloseProtocol.ReasonIsFirstWins | internal/app/session/session.go:151-234 | the close info is the first-wins fold of everything submitted; a close is requested iff the state is terminal; Failed means cause error, Closing any other |
| CloseProtocol.TerminalForGood | internal/app/session/session.go:116-234 | no step leaves a terminal state, leaves Closed, or changes the cause of a terminal session |
| CloseProtocol.FinalizeIdempotent | internal/app/session/session.go:212-234 | finalizing again with the same fallback changes nothing |
| CloseInfos.MergeAssociative | internal/app/session/session.go:337-351 | the field-wise merge is associative and idempotent with the blank info as unit |
| CloseInfos.FoldIsFirstWins | internal/app/session/session.go:330-351 | each field of the fold is the first one set; the cause is the first info's, an absent one counting as disconnect |
| CloseInfos.FoldKeepsSetFields | internal/app/session/session.go:337-351 | later infos never overwrite a set field |
| Sessions.Session.constructor | internal/app/session/session.go:85-96 | a new session is connected, with nothing requested |
| Sessions.Session.BeginHandshake | internal/app/session/session.go:116-126 | the section keeps a terminal state |
| Sessions.Session.MarkActive | internal/app/session/session.go:128-135 | the section keeps a terminal state |
| Sessions.Session.RequestClose | internal/app/session/session.go:151-190 | the section, and the close function it leaves to be called |
| Sessions.Session.Fail | internal/app/session/session.go:145-147 | a close request with cause error |
| Sessions.Session.BindCloseFunc | internal/app/session/session.go:194-208 | the section, and the close function it leaves to be called |
| Sessions.Session.Finalize | internal/app/session/session.go:212-234 | the section, its result, and whether done is to be closed |
| Sessions.Session.StartTrack | internal/app/session/session.go:262-272 | a given play id is reused without counting; otherwise the id is made from the next 64-bit number |
| Sessions.Session.ClearTrack | internal/app/session/session.go:275-281 | returns and empties the current track |
| TrackIds.FormatTrackSeq | internal/app/session/session.go:353-367 | the digit loop and the reversal print the canonical decimal form |
| TrackIds.ReverseInPlace | internal/app/session/session.go:363-365 | the swapping loop reverses the buffer |
| TrackIds.FormatParses | internal/app/session/session.go:353-367 | printing and reading back gives the number, and the print has no leading zero |
| TrackIds.CanonicalFormat | internal/app/session/session.go:353-367 | every canonical numeral is the print of its value |
| TrackIds.TrackIDsDiffer | internal/app/session/session.go:262-272 | ids of one session are equal only for the same prefix and number, whatever characters the session id has |
| TrackIds.TrackIDParts | internal/app/session/session.go:262-272 | an id is the prefix, the session id and a canonical numeral of the number, joined by dashes |
| Managers.Manager.Create | internal/app/session/manager.go:36-43 | a fresh session filed under its id |
| Managers.Manager.Delete | internal/app/session/manager.go:52-56 | removes the id |
| Managers.Manager.Kill | internal/app/session/manager.go:60-73 | requests the close of the session filed under the id with the kill reason, and says whether there is one |
| Managers.Manager.List | internal/app/session/manager.go:75-101 | exactly the filed sessions without a requested close, strictly sorted by creation time and id |
| Managers.Manager.Cleanup | internal/app/session/cleanup.go:7-14 | finalizes the session and removes its id; without a session only normalises the fallback |
| Orders.Sort | internal/app/session/manager.go:92-98 | the result is strictly sorted and has exactly the given entries |
| Orders.SortedListIsUnique | internal/app/session/manager.go:92-98 | two strictly sorted lists with the same entries are equal, so the listing is determined |
| Orders.SortedIff | internal/app/session/manager.go:92-98 | strictly sorted means oldest first, and ids in order among those of the same time |
| Orders.LessIff | internal/app/session/manager.go:92-98 | ids are ordered by the first character in which they differ, a proper prefix coming first |
| Registry.ListedExactly | internal/app/session/manager.go:36-101 | over every history, listed are exactly the sessions created, not cleaned up, not close-requested and not displaced by another of the same id |
| Registry.ListedFromCreation | internal/app/session/manager.go:36-43 | a session that was only created is listed |
| Registry.ListedWithDistinctIds | internal/app/session/manager.go:36-101 | with distinct ids: exactly those created, not cleaned up and not close-requested |
| Registry.SharedIdHidesALiveSession | internal/app/session/manager.go:36-56 | with one id used twice, cleaning up the first session takes the live second one off the list |
| Histories.Perform | internal/app/session/manager.go:36-73 | each operation on the manager and session objects is one step of the registry the history theorems are about |
| Histories.ShowList | internal/app/session/manager.go:75-101 | the list of objects that reflect a registry is, strictly sorted, what the registry lists |
| Histories.ListAfter | internal/app/session/manager.go:36-101 | after any history of operations on real objects the list shows exactly the sessions created, not cleaned up, not close-requested and not displaced, strictly sorted |
| Serve.ServeWS | internal/adapter/inbound/http/call_handler.go:98-247 | for every message script, failure point and kills or failures between any two actions on the session: a created session ends Closed, gone from the manager, and in exactly one record with the first reason, initiator and error submitted and the commands routed, in order |
| Serve.Loop | internal/adapter/inbound/http/call_handler.go:186-246 | the command loop routes each command and requests exactly the infos its script calls for, in order |
| Serve.CleanUpAndRecord | internal/adapter/inbound/http/call_handler.go:462-490 | the record is read from the session's own close info, late requests included |
| Serve.RunTurn | internal/adapter/inbound/http/call_handler.go:186-246 | one turn: what is requested during it, the command routed, and what it stops with |
| Serve.Dispatch | internal/adapter/inbound/http/call_handler.go:192-246 | one message: the router's close, or the failure to decode, write or add candidates, decides whether to stop |
| ServeRecords.WhatIsSubmitted | internal/adapter/inbound/http/call_handler.go:98-247 | the exact order of everything submitted to an answered call, up to the turn its loop ends in and through the cleanup, and the commands routed |
| ServeRecords.AnswerFails | internal/adapter/inbound/http/call_handler.go:157-181 | a call whose answer cannot be built or sent is stopped with that error and routes nothing |
| ServeRecords.StopsIff | internal/adapter/inbound/http/call_handler.go:186-246 | which messages stop the loop and with what words |
| ServeRecords.StopIsRecorded | internal/adapter/inbound/http/call_handler.go:186-247 | an undisturbed call is recorded with the words of the message that stops it and the commands up to it |
| ServeRecords.FailedFirst | internal/app/session/session.go:145-147 | a media failure submitted first is what the record says |
| Serve.KilledFirst | internal/adapter/inbound/http/call_handler.go:98-112 | a kill that is submitted first, at whatever point, is what the record says, whatever follows |
| Serve.KillThenAnything | internal/adapter/inbound/http/call_handler.go:186-247 | in particular a kill of an answered call in any turn before which nothing was submitted, whether the call then disconnects, fails or hangs up |
| Router.CloseAndEvents | internal/app/session/command_router.go:28-184 | which close a command asks for does not depend on the tracks, and only commands without effect have no events |
| Router.HangsUpIff | internal/app/session/command_router.go:28-184 | a hangup always closes with its own reason and initiator; a play, or a tts that succeeds, closes if and only if autoHangup is true, as autohangup by system; nothing else closes |
| Router.TtsEvents | internal/app/session/command_router.go:34-99 | the events of a tts: track start, what was played twice or what went wrong, track end, and a hangup behind a success that asks for it; under the given id or a made-up one |
| Router.PlayEvents | internal/app/session/command_router.go:100-128 | the events of a play |
| Router.OtherEvents | internal/app/session/command_router.go:28-173 | the events of the other commands and what they leave of the tracks |
| Router.Totals | internal/app/session/command_router.go:225-252 | the totals are the length of the whole audio and the number of its non-empty chunks |
| Serve.PlainDisconnect | internal/adapter/inbound/http/call_handler.go:186-190 | an undisturbed call is recorded as a disconnect without reason, initiator or error |
| Router.Route | internal/app/session/command_router.go:28-173 | the method's events, close and track state are those of the routing function |
| Router.SynthesizeTTS | internal/app/session/command_router.go:225-252 | the reading loop counts all bytes and the non-empty chunks; a fault of the stream hides a failure to close it |
| Router.CommandWellRouted | internal/app/session/command_router.go:28-196 | one command: matched track events, no track left current, and a close iff the last event is a hangup, with the same reason and initiator |
| Router.RunBalances | internal/app/session/command_router.go:28-173 | over any run of commands track events are matched, no track is current between commands, and the i-th generated id is made from the number i |
| Router.GeneratedIdsDiffer | internal/app/session/session.go:262-272 | all ids generated in a session differ |
| TtsQueue.DeliveredInOrder | internal/adapter/outbound/tts/aliyun.go:85-142 | over every interleaving of producers, one consumer and closers: chunks come back in the order accepted, the queue never exceeds 32 and holds up a producer only then, and at a final answer every chunk accepted before done was closed has been returned |
| TtsQueue.FirstErrorReported | internal/adapter/outbound/tts/aliyun.go:85-153 | every final answer is the first error reported by then, or end of file if none; after a failure all later answers are that failure |
| TtsQueue.DoneClosedOnce | internal/adapter/outbound/tts/aliyun.go:106-119 | done is closed at most once, and is closed once nobody is inside the first Close |
| TtsQueue.NeverMissesIff | internal/adapter/outbound/tts/aliyun.go:85-142 | at the moment done is closed: in no continuation is a final answer given while an accepted chunk is not returned, if and only if no producer is past the first check |
| TtsQueue.LateChunksBounded | internal/adapter/outbound/tts/aliyun.go:129-142 | chunks accepted after done was closed are no more than the producers past the first check at that moment |
| TtsQueue.LateChunkMissed | internal/adapter/outbound/tts/aliyun.go:129-142 | such a late chunk can be accepted and never returned although end of file was answered |
| TtsQueue.ReadToTheEnd | internal/adapter/outbound/tts/aliyun.go:85-104 | on a closed stream, as many calls as chunks are queued return them all, and the next gives the final answer |
| TtsQueue.WaitsIff | internal/adapter/outbound/tts/aliyun.go:85-142 | over every interleaving a producer waits only for a full queue, the consumer only for an empty one, and neither once done is closed |
| TtsQueue.UninterruptedCalls | internal/adapter/outbound/tts/aliyun.go:106-142 | the steps of one close or push, with none of another thread in between, are the call on the object |
| TtsQueue.AliyunStream.Recv | internal/adapter/outbound/tts/aliyun.go:85-104 | takes the first chunk on either branch, answers finally only when empty and done, and blocks only when empty and not done |
| TtsQueue.AliyunStream.PushChunk | internal/adapter/outbound/tts/aliyun.go:129-142 | appends a non-empty chunk while not done and below the bound; blocks only when full |
| TtsQueue.AliyunStream.SetError | internal/adapter/outbound/tts/aliyun.go:144-153 | the first error stays |
| TtsQueue.AliyunStream.Close | internal/adapter/outbound/tts/aliyun.go:106-119 | closes once |
| TtsQueue.AliyunStream.WaitCompletion | internal/adapter/outbound/tts/aliyun.go:121-127 | records the failure, then closes |
| Codec.PcmBytesToSamples | internal/app/media/codec/codec.go:64-74 | the loop reads little-endian samples and ignores an odd byte |
| Codec.PcmSamplesToBytes | internal/app/media/codec/codec.go:76-85 | the loop writes little-endian samples |
| Codec.SamplesBytes | internal/app/media/codec/codec.go:64-85 | reading what was written gives the samples |
| Codec.BytesSamples | internal/app/media/codec/codec.go:64-85 | writing what was read gives the payload without an odd last byte |
| Codec.ResamplePCM16LE | internal/app/media/codec/codec.go:89-110 | the method equals the resampling function |
| Codec.ClampNeverTaken | internal/app/media/codec/codec.go:97-108 | whenever the length formula is positive the index clamp is never taken |
| Codec.FallbackRepeatsTheLast | internal/app/media/codec/codec.go:97-108 | when it is zero, every index but the first is clamped: the first sample, then copies of the last |
| Codec.IndicesNondecreasing | internal/app/media/codec/codec.go:102-108 | source indices never go back |
| Codec.StretchRepeats | internal/app/media/codec/codec.go:89-110 | going up by an integer factor repeats every sample that many times |
| Codec.UpAndBack | internal/app/media/codec/codec.go:89-110 | going up by an integer factor and back gives the samples back |
| Codec.PayloadUpAndBack | internal/app/media/codec/codec.go:89-110 | for payloads: even lengths come back unchanged, odd ones without the last byte |
| Inbound.NormalizeInboundPayload | internal/app/media/track/webrtc_track.go:373-387 | decode, default clock rate, resample to 16 kHz |
| Inbound.StretchKeepsDuration | internal/app/media/processor/vad.go:540-549 | going up by an integer factor keeps the length the detector measures |
| Inbound.InboundDuration | internal/app/media/track/webrtc_track.go:373-387 | n bytes of 8 kHz G.711 are measured as exactly ceil(n/8) ms |
| Inbound.EachByteTwice | internal/app/media/track/webrtc_track.go:373-387 | each byte of 8 kHz audio becomes two equal samples, its value under the law of its own codec |
| Inbound.OtherwiseOnlyDecoded | internal/app/media/track/webrtc_track.go:373-387 | audio at 16 kHz is only decoded; an unknown codec gives nothing |
| MuLaw.LinearToMuLaw | internal/app/media/codec/pcmu.go:36-61 | the exponent search finds the code of the cell the biased magnitude lies in |
| MuLaw.MuLawToLinear | internal/app/media/codec/pcmu.go:63-75 | the decoded value of a byte |
| MuLaw.CodeCell | internal/app/media/codec/pcmu.go:36-61 | the code chosen is the one whose cell holds the biased magnitude |
| MuLaw.ValueInCell | internal/app/media/codec/pcmu.go:63-75 | a code decodes to the middle of its cell |
| MuLaw.EncodeDecode | internal/app/media/codec/pcmu.go:36-75 | encoding a decoded byte gives it back, with 0x7F becoming 0xFF |
| MuLaw.DecodeEncodeDecode | internal/app/media/codec/pcmu.go:36-75 | a second trip changes nothing |
| MuLaw.HalfStepError | internal/app/media/codec/pcmu.go:36-75 | a decoded sample is within 2^(exponent+2) of the clipped input |
| MuLaw.OrderPreserving | internal/app/media/codec/pcmu.go:36-75 | companding keeps the order of samples |
| MuLaw.Encode | internal/app/media/codec/pcmu.go:12-23 | the loop encodes every whole sample |
| MuLaw.Decode | internal/app/media/codec/pcmu.go:25-34 | the loop decodes every byte |
| MuLaw.PayloadEncodeDecode | internal/app/media/codec/pcmu.go:12-34 | for payloads: Encode of Decode merges the two zeros and changes nothing else |
| MuLaw.PayloadDecodeEncodeDecode | internal/app/media/codec/pcmu.go:12-34 | for payloads: Decode of Encode of Decode is Decode |
| ALaw.ALawSegment | internal/app/media/codec/pcma.go:84-91 | the loop finds the first segment whose end is not below the sample |
| ALaw.LinearToALaw | internal/app/media/codec/pcma.go:36-63 | the byte of a sample |
| ALaw.ALawToLinear | internal/app/media/codec/pcma.go:65-82 | the decoded value of a byte |
| ALaw.FlipBits | internal/app/media/codec/pcma.go:38-66 | the mask changes every other bit, the lowest included |
| ALaw.SilenceByte | internal/app/media/codec/pcma.go:36-82 | 0xD5 decodes to 8 and 0 is encoded as 0xD5 |
| ALaw.OrderPreserving | internal/app/media/codec/pcma.go:36-91 | companding keeps the order of samples |
| ALaw.SignPreserving | internal/app/media/codec/pcma.go:36-82 | and their sign, zero counting as positive |
| ALaw.CloseIff | internal/app/media/codec/pcma.go:36-91 | a companded sample is within half a step of the original if and only if it lies in 0..31, -16..-1, -32..-24, or is at least 31744 in magnitude |
| ALaw.NotClose | internal/app/media/codec/pcma.go:36-91 | for instance 1000, which comes back as 8960, is not close |
| ALaw.EncodeDecodeIff | internal/app/media/codec/pcma.go:36-91 | encoding a decoded byte gives it back if and only if its code without the sign is 0, 1 or 127 |
| ALaw.SixBytes | internal/app/media/codec/pcma.go:36-91 | these are the six bytes 55, 54, 2A, D5, D4 and AA (hexadecimal) |
| ALaw.DecodeEncodeDecodeIff | internal/app/media/codec/pcma.go:36-91 | a second trip keeps the sample for exactly those codes |
| ALaw.Encode | internal/app/media/codec/pcma.go:12-23 | the loop encodes every whole sample |
| ALaw.Decode | internal/app/media/codec/pcma.go:25-34 | the loop decodes every byte |
| ALaw.PayloadEncodeDecodeIff | internal/app/media/codec/pcma.go:12-34 | a payload survives decoding and encoding if and only if all its bytes are such codes |

## Left out

- Loudness: the square root; a loudness is characterised by its square. The theorems about runs hold for frames of any
  loudness, that of their samples included.
- Floating point: the noise floor and the thresholds are reals, so rounding of the smoothed noise floor is not modelled.
- Option conversions: int64 and uint64 values that wrap when options are converted; modes other than the three known
  strings, which are rejected before a session is created; configuration and JSON decoding.
- Scorers, recognition and synthesis providers: their answers and errors are arbitrary inputs of each call.
- Network code (websocket, WebRTC, SDP) and file writers: a connection is a script of messages and failures.
- StreamRace.LeftOpenIff: the detector's and the recogniser's handling of one packet is one step each, so a close cannot
  fall inside one, as between the opening of a session and the first write to it.
- The error callback of an asynchronous result failure beyond its close request, and timestamps of such results.
- The recogniser session of the Aliyun adapter: its channel order depends on the timing of the provider's callbacks.
- Registry and Serve take a session id as given; generating ids is left out, and uniqueness is a hypothesis where needed.
- Managers.Manager.List: the library sort is modelled by an insertion sort; both give the one strictly sorted list.
- Serve.ServeWS: closing the call's audio stream and track, which follows the record, is left out.
- Serve.CleanUpAndRecord: the record's caller, callee, offer, answer, call type and dump file are left out.
- Sessions.Session.BeginHandshake: storing the call option is left out.
- Router.Route: texts, positions, timestamps and provider names of events are left out.
- TtsQueue.AliyunStream.Recv: a blocked call is a result of its own instead of waiting; the interleavings treat waiting
  as steps that are not enabled.
- Denoise and recorder (beyond passing packets on and counting bytes), track metadata, dump files, metrics and logging:
  they would only add easy members.
