# boo audio voices, CoreAudio channel layouts and graphics ownership tokens

This project is a Dafny model of three self-contained parts of the boo
multimedia library. Each part comes with proofs about its behaviour.

- **Audio voices** (`audio_voice.dfy`, module `AudioVoice`). One voice of
  the software mixer, covering:
  - pitch and sample-rate requests, which are only recorded and then
    applied by the deferred update at the start of the next pump;
  - start/stop and unbinding from the engine;
  - the resampler's input pulls, which grow the shared input scratch and
    zero-fill it for a silent voice or ask the client for audio otherwise;
  - the per-period pump: it grows the shared scratch buffers, runs the
    deferred update, and routes the output once per send or once into the
    main submix;
  - the per-submix channel levels, with mono/stereo broadcast and column
    selection.

  The mono and stereo voice classes are one class `Voice` whose `kind`
  selects the channel count. The 16-bit, 32-bit and float pumps are one
  method whose `SampleFormat` argument selects the scratch pair.
  - Calls into code outside this model are appended, in order, to the
    voice's ghost `events` log. These are the soxr resampler, the client
    callbacks, the matrix mixing and the engine's unbinding of the voice.
  - Their answers are parameters: the resampler's error replies and the
    frame count `soxr_output` produced.

- **CoreAudio back end** (`aqs.dfy`, module `Aqs`). This part covers:
  - the mapping from CoreAudio channel labels to boo channels;
  - the mapping from the device's channel count to a channel set;
  - the construction of the output channel map;
  - the period and buffer sizes;
  - the flag-level behaviour of the output callback, the retrace break and
    teardown.

  The channel map is built from a list of channel descriptions, a channel
  bitmap decoded in a fixed order, or a fixed layout tag, with a stereo
  fallback. It is then padded with `Unknown` up to the device's channel
  count. The channel descriptions go through the label table as the code has
  it; the corrected table of the Findings section stands beside it. CoreAudio
  constants take the values of Apple's `CoreAudioTypes.h`.

- **Graphics ownership tokens** (`graphics_tokens.dfy`, module
  `GraphicsTokens`). `GraphicsDataToken` and `GraphicsBufferPoolToken` are
  move-only owners of a (factory, resource) pointer pair. They appear on
  two levels:
  - As classes (`DataToken`, `PoolToken`) whose methods change the two
    pointer fields. The factory records the calls it receives in a ghost
    log.
  - As a value-level system of many tokens (`System`, `Op`, `Apply`,
    `Run`). Here it is proved that, whatever a program does with tokens,
    every resource is released at most once.

  The vertex-semantic flag values are modelled as well.

`wrappers.dfy` holds the `Option` type. `None` stands for a null pointer or
a failed query.

## Model

| member | source | states |
|---|---|---|
| AudioVoice.PitchRatioStep | lib/audiodev/AudioVoice.cpp:22-35 | Reference definition of _setPitchRatio. The pending flag ends cleared, and the resampler is called exactly when the voice has dynamic rate. |
| AudioVoice.SampleRateStep | lib/audiodev/AudioVoice.cpp:84-109 | Reference definition of _resetSampleRate. The reset flag ends cleared. The calls open with the resampler's deletion and its creation for the new rate, the mix rate and the channel count, then the fatal report on failure or the installation of the input callback on success. |
| AudioVoice.MidUpdateStep | lib/audiodev/AudioVoice.cpp:37-43 | Reference definition of _midUpdate: the reset step when a reset is pending, then the pitch step when a pitch change is still pending. Its properties are the lemmas below. |
| AudioVoice.MidUpdateClearsPending | lib/audiodev/AudioVoice.cpp:22-43 | After the deferred update, neither the pitch request nor the rate request is pending, on every path including the resampler's error paths. |
| AudioVoice.MidUpdateRates | lib/audiodev/AudioVoice.cpp:97-108 | The deferred update keeps the stored ratio, slew and deferred rate. The in/out rates become (deferred rate, mix rate) exactly when a pending reset succeeds; otherwise they are unchanged. |
| AudioVoice.MidUpdateIdle | lib/audiodev/AudioVoice.cpp:37-43 | With nothing pending, the deferred update calls nothing and changes nothing. |
| AudioVoice.MidUpdateResetFirst | lib/audiodev/AudioVoice.cpp:37-43 | A pending rate reset is applied first: the update opens by deleting the resampler and creating one for the deferred rate, the mix rate and the voice's channel count. |
| AudioVoice.StaticRateKeepsRatio | lib/audiodev/AudioVoice.cpp:22-35 | Without dynamic rate, no deferred update ever sets the resampler's io ratio. |
| AudioVoice.PitchChangeIoRatio | lib/audiodev/AudioVoice.cpp:22-35 | With dynamic rate, a pending pitch change alone sets the io ratio from the stored ratio and the current in/out rates. The slew is the 5 ms frame count when slew was requested and 0 otherwise. |
| AudioVoice.ResetAppliesRatioUnslewed | lib/audiodev/AudioVoice.cpp:104-108 | After a successful reset, the input callback is installed and the stored ratio is applied against the new rates with slew 0. |
| AudioVoice.MidUpdateSetsRatioAtMostOnce | lib/audiodev/AudioVoice.cpp:37-43 | One deferred update sets the io ratio at most once. A pending pitch change is consumed by the reset's own ratio call. |
| AudioVoice.Resized | lib/audiodev/AudioVoice.cpp:114-115 | Growing a vector keeps its contents and fills the new tail with zeros. |
| AudioVoice.Grown | lib/audiodev/AudioVoice.cpp:128-134 | The grow-only rule of the scratch buffers: the result holds at least the need and never shrinks, and the old contents are kept. A buffer that was short becomes exactly need plus pad; one that was long enough is untouched. |
| AudioVoice.GrownIdempotent | lib/audiodev/AudioVoice.cpp:128-134 | Growing twice for the same need is the same as growing once. |
| AudioVoice.BroadcastMono | lib/audiodev/AudioVoice.cpp:452-462 | The stereo voice's mono levels copy each coefficient into both columns. |
| AudioVoice.LeftColumn | lib/audiodev/AudioVoice.cpp:256-266 | The mono voice's stereo levels keep column 0 of each row. |
| AudioVoice.LeftColumnOfBroadcast | lib/audiodev/AudioVoice.cpp:452-462 | Taking column 0 of a broadcast gives back the mono coefficients. |
| AudioVoice.TargetSubmix | lib/audiodev/AudioVoice.cpp:245-246 | A null submix means the main submix. What this means for a caller is stated by SetMonoChannelLevels and SetStereoChannelLevels: exactly the entry of this submix is set, and at most this one key is added. |
| AudioVoice.SendRoutes | lib/audiodev/AudioVoice.cpp:145-150 | Reference definition of the send loop: two calls per visited send, a routeAudio for that submix and then a mix into it with that send's matrix. Its properties are SendRoutesAt and SendRoutesTargets. |
| AudioVoice.SendRoutesAt | lib/audiodev/AudioVoice.cpp:143-151 | The send loop makes exactly two calls per send, in visiting order: a routeAudio for that submix, then a mix into it with that send's matrix. |
| AudioVoice.SendRoutesTargets | lib/audiodev/AudioVoice.cpp:145-150 | The submixes mixed into, and those routed for, are exactly the visited sends in order. So each send is mixed into exactly once. |
| AudioVoice.VoiceEngine.GrowScratch | lib/audiodev/AudioVoice.cpp:128-134 | The pre and post scratch of the pump's format grow to the period's sample count by the grow-only rule. The float pair is padded by 2 (mono) or 4 (stereo), as at lines 200-208 and 409-415. The other pairs are unchanged. |
| AudioVoice.PulledIn | lib/audiodev/AudioVoice.cpp:111-124 | One input pull: the input scratch grows by the grow-only rule to the requested samples; for a silent voice exactly those samples are zero and the rest of the grown buffer is kept. For stereo, see lines 311-325. |
| AudioVoice.PullsInHolds | lib/audiodev/AudioVoice.cpp:111-124 | After a run of pulls the input scratch never shrank and holds every pull's samples. A client voice keeps the old contents; a silent voice has the last pull's samples zeroed. |
| AudioVoice.PullEvents | lib/audiodev/AudioVoice.cpp:117-123 | A silent voice never asks the client; otherwise there is exactly one supplyAudio per pull, for that pull's frames, in order. |
| AudioVoice.PullAnswers | lib/audiodev/AudioVoice.cpp:117-123 | One answer per pull, in order: the frames asked for when the voice is silent, the client's supplyAudio count otherwise. |
| AudioVoice.Voice.constructor | lib/audiodev/AudioVoice.cpp:77-82 | A new voice is not running, has no sends, takes its registration and silent flag as given, and has already had its resampler built for its sample rate, with exactly the state and calls of the rate-reset step. |
| AudioVoice.Voice.ApplyPitchRatio | lib/audiodev/AudioVoice.cpp:22-35 | _setPitchRatio: the pending flag is cleared on both the success and the error path. The resampler is called only with dynamic rate. |
| AudioVoice.Voice.ApplySampleRate | lib/audiodev/AudioVoice.cpp:84-109 | _resetSampleRate: the resampler is rebuilt. If creation fails (the mono voice tests the error, the stereo voice the handle, line 297), a report is logged and the rates are kept. Otherwise the rates are set, the input callback is installed and the stored ratio is applied. The reset flag is cleared on both paths. |
| AudioVoice.Voice.MidUpdate | lib/audiodev/AudioVoice.cpp:37-43 | _midUpdate: a pending reset is applied, then a still-pending pitch change. The new state and calls are those of the deferred-update step, whose properties are the lemmas above. |
| AudioVoice.Voice.SetPitchRatio | lib/audiodev/AudioVoice.cpp:45-50 | Records the ratio and the slew and marks the change pending. It makes no call and changes nothing else. |
| AudioVoice.Voice.ResetSampleRate | lib/audiodev/AudioVoice.cpp:52-56 | Records the rate and marks the reset pending. It makes no call and changes nothing else. |
| AudioVoice.Voice.Start | lib/audiodev/AudioVoice.cpp:58-61 | The voice is running afterwards. |
| AudioVoice.Voice.Stop | lib/audiodev/AudioVoice.cpp:63-66 | The voice is not running afterwards. |
| AudioVoice.Voice.UnbindVoice | lib/audiodev/AudioVoice.cpp:68-75 | The voice is unbound afterwards. The engine's unbinding is called, and logged, only when the voice was bound, so at most once over the voice's whole life (an invariant). |
| AudioVoice.Voice.Destroy | lib/audiodev/AudioVoice.cpp:16-20 | The destructor first unbinds, logging the engine's unbinding only when the voice was bound, and only then deletes the resampler: the log ends with the unbinding, if any, followed by the deletion. |
| AudioVoice.Voice.SrcCallback | lib/audiodev/AudioVoice.cpp:111-124 | The input scratch becomes PulledIn of its old contents: it grows to frames times channel count (for stereo, see lines 311-325). A silent voice zero-fills exactly that many samples, keeps the rest and returns the frame count without calling the client. Otherwise the client is asked, and its answer is returned. |
| AudioVoice.Voice.RouteOutput | lib/audiodev/AudioVoice.cpp:141-158 | Nothing is routed when no frame came out. Otherwise there is one route and one mix per send, over an enumeration that visits every send exactly once; with no sends, one route and one default-matrix mix go into the main submix. |
| AudioVoice.Voice.SupplyPulls | lib/audiodev/AudioVoice.cpp:106-124 | The pulls soxr_output makes through the installed SRCCallback, in order: the input scratch ends as PullsIn of the pulls, the client calls are PullEvents of them, and the answers are PullAnswers of them. |
| AudioVoice.Voice.PumpAndMix | lib/audiodev/AudioVoice.cpp:126-161 | The scratch pair grows. preSupplyAudio, the deferred update and soxr_output follow in this order; inside soxr_output come its input pulls, which grow the input scratch and ask the client's supplyAudio unless the voice is silent. Then comes the routing above. The pump returns soxr_output's count. For stereo, see lines 327-364. |
| AudioVoice.Voice.ResetChannelLevels | lib/audiodev/AudioVoice.cpp:237-241 | The send map is empty and the submix graph is marked dirty. The new state does not depend on the old one, so a second call changes nothing (for stereo, see lines 444-448). |
| AudioVoice.Voice.SetMonoChannelLevels | lib/audiodev/AudioVoice.cpp:243-252 | Only the target submix's entry is set (null means the main submix), and at most one key is added. A stereo voice stores the coefficients broadcast to both columns (lines 450-471). The slew is 5 ms when requested. |
| AudioVoice.Voice.SetStereoChannelLevels | lib/audiodev/AudioVoice.cpp:254-275 | Only the target submix's entry is set, and at most one key is added. A mono voice stores column 0 and a stereo voice the whole table (lines 473-482). |
| Aqs.ChannelFromLabelAsWritten | lib/audiodev/AQS.cpp:15-37 | The mapping is total, and a label maps to Unknown exactly when it is not one of the eight listed labels. |
| Aqs.LeftSurroundDirectAliasesAsWritten | lib/audiodev/AQS.cpp:31-32 | As written, LeftSurroundDirect and LeftSurround, two different labels, map to the same channel. That channel is not the one the bitmap decoder gives for that position. |
| Aqs.ChannelFromLabel | lib/audiodev/AQS.cpp:15-37 | The corrected mapping: Unknown exactly for unlisted labels, and LeftSurroundDirect maps to SideLeft. |
| Aqs.LabelsAgreeWithBitmap | lib/audiodev/AQS.cpp:650-665 | The corrected mapping sends each known label to the channel of the corresponding bitmap bit. |
| Aqs.ChannelFromLabelInjective | lib/audiodev/AQS.cpp:15-37 | Under the corrected mapping, no two known labels share a channel. |
| Aqs.AsWrittenDiffersOnlyAtLeftSurroundDirect | lib/audiodev/AQS.cpp:31-32 | The as-written and corrected tables agree on every label except LeftSurroundDirect, which they map to RearLeft and SideLeft. |
| Aqs.AvailableSet | lib/audiodev/AQS.cpp:88-134 | _getAvailableSet. A known set is returned only for a successful probe, and that set has exactly the probed number of channels. |
| Aqs.AvailableSetMatchesCount | lib/audiodev/AQS.cpp:88-134 | A known channel set is returned exactly when the probe succeeds with a count of 2, 4, 6 or 8, and that set has that many channels. A failed probe or any other count gives Unknown. |
| Aqs.DecodeBitmap | lib/audiodev/AQS.cpp:649-666 | The bitmap branch. It yields at most eight channels; its full properties are in DecodeBitmapProperties. |
| Aqs.DecodeBitmapProperties | lib/audiodev/AQS.cpp:649-666 | A decoded bitmap has one channel per set bit among the eight tested, so at most eight, with no channel twice. Each tested channel appears exactly when its bit is set; other bits are ignored. |
| Aqs.DecodeBitmapUnrolled | lib/audiodev/AQS.cpp:649-666 | The table-driven decoding equals testing the eight bits one after another in the order FL, FR, FC, LFE, RL, RR, SL, SR. |
| Aqs.DecodeBitmapBits | lib/audiodev/AQS.cpp:649-666 | The appending sequence of bit tests yields the decoded bitmap. |
| Aqs.TagLayout | lib/audiodev/AQS.cpp:667-695 | Every fixed layout has 2 to 5 channels and starts with FL, FR. |
| Aqs.Labelled | lib/audiodev/AQS.cpp:641-648 | One channel per description, each that of its label under the table as written (AQSChannelToBooChannel, line 645). |
| Aqs.LayoutChannels | lib/audiodev/AQS.cpp:628-702 | The channels the layout names before padding. This fails exactly when the layout query fails for a device with more than two channels, and a decoded bitmap names at most eight channels. |
| Aqs.Padded | lib/audiodev/AQS.cpp:704-705 | Padding yields at least the device's channel count and never drops an entry. |
| Aqs.PaddedProperties | lib/audiodev/AQS.cpp:704-705 | Padding reaches at least the device's channel count and keeps the existing entries. Every added entry is Unknown, and nothing is added when the map is already wide enough. |
| Aqs.PadChannels | lib/audiodev/AQS.cpp:704-705 | The padding loop yields the padded map. |
| Aqs.ChannelMap | lib/audiodev/AQS.cpp:628-705 | The output channel map. When it exists, it is at least as wide as the device. |
| Aqs.ChannelMapFixedLayouts | lib/audiodev/AQS.cpp:667-702 | A device with two channels or fewer gets [FL, FR] whatever its layout. For devices with more than two channels, Stereo and StereoHeadphones give [FL, FR], Quadraphonic gives [FL, FR, RL, RR], Pentagonal gives [FL, FR, RL, RR, FC], and any other tag gives the stereo fallback, each then padded. |
| Aqs.ChannelMapCovers | lib/audiodev/AQS.cpp:628-705 | The map fails exactly when the layout query fails for a device with more than two channels. Otherwise it is at least as wide as the device, starts with the channels the layout named and is Unknown after them. It is exactly as wide as the device when the layout named no more channels than that. |
| Aqs.DescribedLayoutAliasesAsWritten | lib/audiodev/AQS.cpp:641-648 | As written, a six-channel device described by labels L, R, C, LFE, Ls and LsDirect gets the map [FL, FR, FC, LFE, RL, RL]: RearLeft twice and no SideLeft. |
| Aqs.BuildChannelMap | lib/audiodev/AQS.cpp:628-705 | The constructor's construction yields the channel map above. This covers the description loop through the table as written, the bitmap tests, the fixed tags, the two-channel branch and the padding loop. |
| Aqs.FiveMsFrames | lib/audiodev/AQS.cpp:626 | Five milliseconds of frames, truncated toward zero: the largest whole number not above rate*5/1000. |
| Aqs.PeriodFrames | lib/audiodev/AQS.cpp:707 | Reference definition: a period is three 5 ms slices. |
| Aqs.FrameBytes | lib/audiodev/AQS.cpp:717 | Reference definition: the bytes filled per period, one 32-bit sample per channel of the map. Related to the allocation by FrameBytesFit. |
| Aqs.BufferBytes | lib/audiodev/AQS.cpp:709 | Reference definition: the bytes each queue buffer is allocated with, one 32-bit sample per device channel. Related to the filled bytes by FrameBytesFit. |
| Aqs.FrameBytesFit | lib/audiodev/AQS.cpp:709-717 | The bytes filled per period fit the allocated buffers exactly when the channel map is no wider than the device. |
| Aqs.FrameBytesOfNarrowLayout | lib/audiodev/AQS.cpp:704-717 | When the layout names no more channels than the device has, the filled bytes equal the allocated bytes. |
| Aqs.PentagonalOnNarrowDevice | lib/audiodev/AQS.cpp:686-717 | A Pentagonal layout on a three- or four-channel device gives the five-channel map FL, FR, RL, RR, FC, so a non-empty period fills more bytes than each buffer is allocated with. |
| Aqs.CallbackDecision | lib/audiodev/AQS.cpp:54-84 | The callback does nothing exactly when callbacks are off. It queues silence exactly when running, not in retrace, and the wait timed out or no retrace arrived. It pumps exactly in the remaining cases. |
| Aqs.CallbackAfterTeardown | lib/audiodev/AQS.cpp:56-57 | With the running flag cleared, every callback is a no-op. |
| Aqs.CallbackInRetracePumps | lib/audiodev/AQS.cpp:61-77 | A callback during a retrace pumps, whatever the wait would have answered. |
| Aqs.AqsEngine.constructor | lib/audiodev/AQS.cpp:626-717 | The engine starts outside a retrace and a callback, with callbacks enabled (lines 50-52). Its 5 ms frame count, period, channel map, filled bytes and allocated bytes are those of the queue's rate, the device's channel count and the layout. The queue is started only when the layout query answered and the buffers were allocated. The filled bytes fit the allocation exactly when the period is empty or the map is no wider than the device, and equal it for a layout no wider than the device. |
| Aqs.AqsEngine.Callback | lib/audiodev/AQS.cpp:54-84 | Callbacks come from a started queue with a buffer of the allocated size. The no-op path changes nothing. The other two paths set the in-callback flag and clear it again on exit, set the buffer's byte count and queue the buffer. The silent path zeroes exactly frameBytes bytes and leaves the rest of the buffer alone; the pump path pumps one period first. |
| Aqs.AqsEngine.RetraceBreak | lib/audiodev/AQS.cpp:770-778 | Afterwards the engine is not in retrace. The callback is woken if inside one, the client otherwise. |
| Aqs.AqsEngine.Teardown | lib/audiodev/AQS.cpp:732-740 | Callbacks are switched off before the queue is disposed: the disposal is logged with the running flag it sees, which is off. If a callback is in progress, it is woken in between. |
| GraphicsTokens.SemanticsFitMask | include/boo/graphicsdev/IGraphicsDataFactory.hpp:112-127 | Every base semantic None..ModelView lies inside SemanticMask and outside Instanced. Combining it with Instanced gives the base back through the mask and still tests as instanced. |
| GraphicsTokens.MaskDisjointFromInstanced | include/boo/graphicsdev/IGraphicsDataFactory.hpp:125-126 | The mask and the instanced flag share no bit. |
| GraphicsTokens.DestroyStep | include/boo/graphicsdev/IGraphicsDataFactory.hpp:297-305 | Reference definition of doDestroy. The token ends owning nothing, and a release happens exactly when it owned something. |
| GraphicsTokens.DestroyReleasesOwned | include/boo/graphicsdev/IGraphicsDataFactory.hpp:297-305 | doDestroy releases exactly the owned resource, exactly once, through its own factory, and leaves the token empty. A token that owns nothing is left as it was. |
| GraphicsTokens.DestroyIdempotent | include/boo/graphicsdev/IGraphicsDataFactory.hpp:297-305 | A second doDestroy releases nothing and changes nothing. |
| GraphicsTokens.MoveTransfers | include/boo/graphicsdev/IGraphicsDataFactory.hpp:308-314 | A move construction gives the target the source's pair, nulls the source and releases nothing. |
| GraphicsTokens.MoveAssignReleasesTarget | include/boo/graphicsdev/IGraphicsDataFactory.hpp:316-324 | Move assignment first releases exactly what the target owned, then takes the source's pair and nulls the source. A self-assignment releases and ends empty. |
| GraphicsTokens.Apply | include/boo/graphicsdev/IGraphicsDataFactory.hpp:297-325 | One token operation. The release log only grows, by at most one release per operation. |
| GraphicsTokens.Run | include/boo/graphicsdev/IGraphicsDataFactory.hpp:297-325 | A run of token operations. The release log only grows, by at most one release per operation. |
| GraphicsTokens.ApplyKeepsInv | include/boo/graphicsdev/IGraphicsDataFactory.hpp:297-325 | Every token operation (new, wrap, move, move-assign, doDestroy, destructor) keeps three facts: no resource is released twice, no two tokens share a resource, and no token points to a released one. |
| GraphicsTokens.RunKeepsInv | include/boo/graphicsdev/IGraphicsDataFactory.hpp:297-325 | Any run of possible token operations keeps that invariant. |
| GraphicsTokens.ReleasedAtMostOnce | include/boo/graphicsdev/IGraphicsDataFactory.hpp:297-325 | Starting from no tokens, whatever a program does, every resource is released at most once across moves, move assignments, explicit releases and destructors. |
| GraphicsTokens.DataToken.Owns | include/boo/graphicsdev/IGraphicsDataFactory.hpp:326 | operator bool. What it means is stated by the members that use it: it is false after the default constructor, after DoDestroy and on a moved-from token (Move); a moved-to token owns exactly when the source did; and DoDestroy and MoveAssign call destroyData exactly when it held before. |
| GraphicsTokens.DataToken.constructor | include/boo/graphicsdev/IGraphicsDataFactory.hpp:306 | A default-constructed token has both pointers null and owns nothing. |
| GraphicsTokens.DataToken.Wrap | include/boo/graphicsdev/IGraphicsDataFactory.hpp:294-295 | The factory's constructor stores the given pair. |
| GraphicsTokens.DataToken.Move | include/boo/graphicsdev/IGraphicsDataFactory.hpp:308-314 | The new token holds the source's pair, and owns exactly when the source did. The source is null and owns nothing. The factory is not called. |
| GraphicsTokens.DataToken.DoDestroy | include/boo/graphicsdev/IGraphicsDataFactory.hpp:297-305 | An owned batch gives one destroyData call to its factory and leaves both pointers null. Otherwise neither the pointers nor the factory's log change. The token owns nothing afterwards. |
| GraphicsTokens.DataToken.MoveAssign | include/boo/graphicsdev/IGraphicsDataFactory.hpp:316-324 | The target's owned batch is destroyed first (one destroyData call, or none when nothing was owned). The target then holds the source's pair and the source is null. A self-assignment ends null. |
| GraphicsTokens.PoolToken.Owns | include/boo/graphicsdev/IGraphicsDataFactory.hpp:373 | operator bool. What it means is stated by the members that use it: it is false after the default constructor, after DoDestroy and on a moved-from token (Move); a moved-to token owns exactly when the source did; and DoDestroy and MoveAssign call destroyPool exactly when it held before. |
| GraphicsTokens.PoolToken.constructor | include/boo/graphicsdev/IGraphicsDataFactory.hpp:353 | A default-constructed pool token has both pointers null and owns nothing. |
| GraphicsTokens.PoolToken.Wrap | include/boo/graphicsdev/IGraphicsDataFactory.hpp:341-342 | The factory's constructor stores the given pair. |
| GraphicsTokens.PoolToken.Move | include/boo/graphicsdev/IGraphicsDataFactory.hpp:355-361 | The new token holds the source's pair, and owns exactly when the source did. The source is null and owns nothing. |
| GraphicsTokens.PoolToken.DoDestroy | include/boo/graphicsdev/IGraphicsDataFactory.hpp:344-352 | An owned pool gives one destroyPool call and leaves both pointers null. Otherwise nothing changes. |
| GraphicsTokens.PoolToken.MoveAssign | include/boo/graphicsdev/IGraphicsDataFactory.hpp:363-371 | The owned pool is destroyed first, then the pair moves over and the source is nulled. A self-assignment ends null. |
| GraphicsTokens.PoolToken.NewPoolBuffer | include/boo/graphicsdev/IGraphicsDataFactory.hpp:375-381 | Without a factory the result is null. Otherwise exactly one newPoolBuffer call goes to the factory with the token's pool, and its answer is returned. |
| GraphicsTokens.PoolToken.DeletePoolBuffer | include/boo/graphicsdev/IGraphicsDataFactory.hpp:383-387 | With a factory, exactly one deletePoolBuffer call goes to it with the token's pool and the buffer. |

## Left out

- The soxr resampler's internals (creation, output, io ratio): it is an oracle. Its error replies (`Replies`), the input pulls soxr_output makes (`pulls`, each with the client's answer) and its output count are parameters, and the calls appear in the event log. The pulls are placed inside the soxr_output call, before its `Output` entry; how many it makes and their sizes are up to the resampler.
- AudioVoice.Voice.PumpAndMix: requires soxr_output's count to be no larger than the requested frames. The source relies on this library guarantee without checking it.
- The matrix mixing (`mixMonoSampleData`, `mixStereoSampleData`), the submix merge buffers, `setMatrixCoefficients`' slewing, and the engine's `_unbindFrom`. These are defined outside this model, and only their calls are recorded.
- Sample contents written by the resampler or by the client into the scratch buffers. Only the resizing and the zero-fill of a silent voice are modelled.
- AudioVoice.Voice.SrcCallback: the client's writes into the input scratch are not modelled, so on the client path the contract states the buffer's size and old contents only.
- `dt = frames / m_sampleRateOut` and the float coefficient values: floating-point numerics. Coefficients are `real` values that are only copied.
- AudioVoice.Voice.RouteOutput: the send map's iteration order is left open. The contract states that every send is visited exactly once, in some order.
- Only `resetChannelLevels` marks the engine's submix graph dirty (lines 237-241); the channel-levels calls do not, and neither does the model.
- The voice's field initialisers live in `AudioVoice.hpp`, which is not part of this model. The initial control values (pitch ratio 1, nothing pending, rates 0), whether the engine has registered the voice (`registered`) and `m_silentOut` (`silent`), which the modelled code only reads, are taken as given.
- AudioVoice.VoiceEngine: the mix rate and the 5 ms frame count are constructor arguments. A back end computes them (CoreAudio's as `Aqs.FiveMsFrames`, stored in `Aqs.AqsEngine.fiveMsFrames`); the two modules are not joined.
- In the voice, each `Fatal` log report is a `FatalReport` event in the log, and the model follows the statements after the report; whether the logger ends the process is outside this model.
- The log reports in `AQS.cpp` are not recorded. The unknown-tag report (lines 689-691) leaves only its stereo fallback, a failed layout query only its `None`, and the other failure reports belong to the OS calls left out below.
- The mutex and condition-variable waiting in `AQS.cpp`, and the client-side loops `pumpAndMixVoices` and `_pumpAndMixVoicesRetrace` (lines 745-768): this is concurrency. The outcome of a wait is an input (`timedOut`, `retraceAfterWait`), and notifications are recorded as calls.
- AudioQueue, CoreAudio and CoreMIDI calls (queue creation, property queries, buffer allocation and priming, MIDI enumeration and ports): OS I/O. The channel count reported by the probe queue and the layout query result are parameters.
- The device channel count `chCount` used by the constructor comes from `ChannelCount` in a header that is not part of this model, so it is a parameter.
- The channel map's fixed eight-slot array is not modelled: the map is an unbounded sequence. `AudioChannelLayout` holds storage for a single channel description only, so descriptions beyond the first are read past the struct. That out-of-bounds access is not modelled.
- Aqs.AqsEngine.Callback: requires the returned buffer, allocated at `bufferBytes`, to hold `frameBytes` bytes, which the source does not check. The engine's constructor states that this holds exactly when the period is empty or the channel map is no wider than the device; `PentagonalOnNarrowDevice` shows a Pentagonal layout on a three- or four-channel device breaking it. The priming of the three buffers (lines 719-724) writes the same `frameBytes` bytes and is not modelled.
- Aqs.AqsEngine.constructor: when the constructor gives up early (failed layout query, failed allocation), the source leaves the period and frame size unset; the model still holds their computed values, marks the engine not `started`, and no callback is modelled for it, since the queue is never started. The earlier failures (queue creation, sample-rate query) belong to the OS calls above.
- Aqs.AqsEngine.Callback: the voices' writes into the buffer on the pump path are not modelled; only the byte count and the calls are.
- The destructors of `GraphicsDataToken` and `GraphicsBufferPoolToken` run `doDestroy`. Dafny has no destructors, so at class level `DoDestroy` stands for both. In the value-level system the destructor is `Drop`, which releases and removes the token.
- The virtual resource-creation interface of the graphics factory, the other platform files (IOKit HID, Vulkan, the Dolphin adapter): pure declarations or OS plumbing outside the three modelled parts.

## Findings

| source | as written | input that shows it | evidently intended | confidence | as-written member | corrected member |
|---|---|---|---|---|---|---|
| lib/audiodev/AQS.cpp:31-32 | label LeftSurroundDirect maps to RearLeft, the channel LeftSurround already maps to | a layout described by labels 5 (LeftSurround) and 10 (LeftSurroundDirect) gets RearLeft twice and no SideLeft | SideLeft, as the bitmap decoder maps the LeftSurroundDirect bit (lines 662-663), mirroring RightSurroundDirect to SideRight | not executed | Aqs.DescribedLayoutAliasesAsWritten | Aqs.LabelsAgreeWithBitmap |
