# Babyface Pro driver: a model and its proofs

A Dafny model of the Linux driver for the RME Babyface Pro and of the small
tool that feeds its selftests, with proofs of what they promise.

- **The PCM session** (`Session*.dfy`). One USB session is shared by playback
  and capture, which may belong to different processes. The control calls under
  the mutex, trigger START without it, the URB completion handlers with their
  atomics, the work that stops a broken session and disconnect are a step
  system: every access to a variable that another actor may change is a step.
  `SessionControl`, `SessionGeometry` and `SessionUrbs` prove what each step
  keeps, `SessionRuns` carries it to every run from probe, `SessionGuarantees`
  says what it means, `SessionStops` what ends a session for good,
  `SessionLeftBehind` and `SessionLateFailure` describe the one way around it.
  `PcmSetup.dfy` has the same calls as methods over the driver's fields, one
  whole call at a time, and as functions; `SessionCalls` proves that the steps
  add up to these functions.
- **URBs and ring** (`Geometry.dfy`, `Ring.dfy`, `Delay.dfy`): the size and number
  of the URBs, the copy loops as the plain streams they stand for, the delays.
- **The equalizer** (`Cordic.dfy`, `EqBand.dfy`, `EqGain.dfy`, `EqBlock.dfy`,
  `Equalizer.dfy`): CORDIC, the power series, the biquad words in 27 fraction bits
  with all bounds, the gains that the words give, the 64-byte block, and the four
  strips against the blocks last uploaded.
- **The mixer** (`MasterCurve.dfy`, `MixerMap.dfy`, `MixerState.dfy`,
  `Mixer.dfy`, `MixerRuns.dfy`): the device has no readback, so the cache has to determine its
  registers. A device is a map from request and index to a value; `loose` names
  the registers that a failed write, the firmware or the panel's gain registers
  leave in doubt, and every operation says how it changes that set: the 16-bit
  masters are put in doubt by failed writes alone, the 8-bit ones also by the OUT
  wheel and, for outputs 3 and 4, by the panel's gain registers.
- **The front panel** (`OutWheel.dfy`, `Fader.dfy`, `Panel.dfy`): the wheels, the
  fader curve read in both directions, the SELECT selection followed beside a
  model of the unit.
- **Probing and tools** (`Seen.dfy`, `ExtractLaws.dfy`): the table of units seen
  and the dependency-ordered extraction of definitions.

Results that differ from what the code's own documentation suggests:

- `babyface_stream_start` sets `streaming` before its last fallible steps. If one
  fails after a START of the other direction slipped in, that substream is left
  running without a session, and a later hw_params can change the rate under it
  (`SessionLateFailure.LateFailureBreaksTheRate`). Which substreams are left
  behind and which calls of hw_params do that is proved in both directions
  (`SessionLeftBehind.FailedStartLeavesBehind`,
  `SessionLeftBehind.ParamsTakesTheSession`). Everything else is proved for every
  substream that such a start did not leave behind.
- The comment at tools/kernel/babyfacepro-ctl.c:333 calls the pair of DIM exact;
  its 16-bit half is a value of the master curve at no step, and the default
  mixer writes it for a step that a resume replays differently
  (`MasterCurve.DimIsNotOnTheCurve`).
- A level in half dB read back from the fader is the one written but for nine
  half steps at the bottom of the curve (`Fader.LevelsComeBack`).
- The rounding of the equalizer's quotients is to the nearest for positive ones
  only (`EqBand.WordAccuracy`).
- A high shelf of the equalizer has the sign of a1 turned around
  (tools/kernel/babyfacepro-ctl.c:3498; the Audio EQ Cookbook, whose formulas
  tools/usbdump/eq_biquad.md gives, has +2 ((A - 1) - (A + 1) cos w0)), which
  exchanges its denominators at 0 Hz and at half the rate. It is flat at 0 Hz if
  and only if cos w0 = (A - 1) / (A + 1) (`EqGain.HighShelfIsFlatOnlyThere`); for
  corners up to fs / 32 it cuts 0 Hz by more than 24 dB whatever its gain
  (`EqGain.HighShelfCutsTheBass`, for example `EqGain.HighShelfForExample`). The
  bell and the low shelf have the gains of the cookbook (`EqGain.BandGains`).
- An equalizer value is cast to 32 bits before its range is tested, so a value
  that is a multiple of 2^32 away from one in range is taken
  (`Equalizer.WideValueIsTaken`, `Equalizer.CastAgrees`). The comment at
  tools/kernel/babyfacepro-ctl.c:3793 means every value out of range to be refused.
- An equalizer value whose upload fails stays in the cache, so putting it again
  does nothing (`Equalizer.Strips.Put`).

What the environment is taken to do: the ALSA core makes one call at a time on a
substream, START and prepare only on one that is set up, hw_params and hw_free
only on one that does not run, and hw_free after a failed hw_params;
`usb_kill_urb` waits for the handler and rejects a resubmit meanwhile; a work item
queued while it runs runs again; memory is sequentially consistent; `actual_length`
is at most the length of the URB. Outcomes of USB transfers, process ids, times and
the readback of the panel are parameters.

## Model

| member | source | states |
|---|---|---|
| SessionControl.NextKeepsCtl | tools/kernel/babyfacepro.c:1167-1372 | Every step of every actor keeps: a substream that runs has the rate of the session and a period not below the session's, a START has seen the geometry that is still the session's, and for either, from its test of streaming on, the session is live or the stop of that substream is still to come - but for a substream that a start which failed after setting streaming left behind; stream_users counts the set up directions |
| SessionGeometry.NextKeepsGeo | tools/kernel/babyfacepro.c:1196-1294 | Every step keeps: outside the writes of one hw_params, urb_frames is a positive number of whole packets of chip->rate and at most frames_per_urb, 2 <= urbs_active <= nurbs, and the direction that chose the session still fits it |
| SessionGeometry.Chosen | tools/kernel/babyfacepro.c:1248-1282 | What hw_params chooses, and is about to write, is whole packets within the limits and fits the period it is chosen from |
| SessionGeometry.ChoiceFits | tools/kernel/babyfacepro.c:1238-1266 | A choice that keeps the geometry as it is: that fits the period as well, and is whole packets of the rate |
| SessionUrbs.CompleteKeepsBus | tools/kernel/babyfacepro.c:661-672 | A URB may complete with any status at any moment and the facts about the queues stay |
| SessionUrbs.UrbKeepsBus | tools/kernel/babyfacepro.c:585-750 | Each atomic step of a completion handler, the cmpxchg loop of babyface_urb_ok included, keeps the facts about the queues, the error count and out_inflight |
| SessionUrbs.KilledIsIdle | tools/kernel/babyfacepro.c:752-768 | When the kill loop is past the last URB, every URB is idle, whatever the handlers did meanwhile |
| SessionUrbs.SubmitUrb | tools/kernel/babyfacepro.c:892-904 | Submitting a URB of a session that is already live keeps the facts although handlers of earlier URBs run beside it |
| SessionRuns.NextKeepsBus | tools/kernel/babyfacepro.c:585-938 | Every step of every actor keeps the facts about the queues |
| SessionRuns.NextKeepsInv | tools/kernel/babyfacepro.c:585-1372 | Every step keeps all of the invariant together |
| SessionRuns.RunKeepsInv | tools/kernel/babyfacepro.c:585-1372 | So does every finite run, in every interleaving |
| SessionRuns.ReachableInv | tools/kernel/babyfacepro.c:1555-1562 | Every state that a run from probe reaches has the invariant |
| SessionGuarantees.RunningFitsTheSession | tools/kernel/babyfacepro.c:752-795 | In every reachable state a running substream has rate == chip->rate and period >= bf_session_period, one URB fits its period and the queue fits two, and the session is live or its stop is on its way; the only exception is a substream that a start failing after it set streaming left behind |
| SessionLeftBehind.FailedStartLeavesBehind | tools/kernel/babyfacepro.c:879-915 | The exception, exactly: from the step that fails to the release of the mutex, whatever the other actors do meanwhile, a substream the application does not stop itself is left running, or about to, without a session and with no stop on its way if and only if it was going to run when the start failed or a START of it that fits the session found streaming still set |
| SessionLeftBehind.ParamsTakesTheSession | tools/kernel/babyfacepro.c:1167-1293 | From any reachable state in which such a substream still has the card's rate and a period that fits, hw_params of the other direction takes the rate or the period from under it, without stopping it, if and only if no session has been started since, the card is there, no other process holds the clock, the call succeeds, and it asks for another rate or chooses URBs too long for that period |
| PcmSetup.LeftBehindLosesTheSession | tools/kernel/babyfacepro.c:1189-1293 | The same of one whole call on the fields, the outcome of its transfer included; a substream that does not go on running is one whose session the call stopped |
| SessionGuarantees.CompletionFitsThePeriod | tools/kernel/babyfacepro.c:991-999 | Whatever is in flight is a URB of the current geometry and no longer than a running substream's period |
| SessionGuarantees.GeometryHolds | tools/kernel/babyfacepro.c:1234-1284 | With the mutex free: whole packets of the rate, within frames_per_urb, 2 to nurbs URBs, and bf_session_period at most the period of the direction that chose |
| SessionGuarantees.KillLeavesNothingBehind | tools/kernel/babyfacepro.c:752-768 | Without a session, and past the kill loop, every URB is idle: none in flight, no handler at work |
| SessionGuarantees.ASessionHasAUser | tools/kernel/babyfacepro.c:1296-1310 | The last user takes the session with it: in every reachable state with the mutex free a session has a direction that is set up, and where none is there is no session, no URB in flight and no handler at work |
| SessionGuarantees.OnlyOwnErrorsStopASession | tools/kernel/babyfacepro.c:879-938 | When stream_work is about to stop a session, three of its own URBs came back bad or one of its own resubmits failed; nothing of an earlier session is left to stop it |
| SessionGuarantees.MissingUrbStopsTheSession | tools/kernel/babyfacepro.c:585-624 | In a fully started session without killed or gone URBs, a URB missing from its queue implies urb_err >= 3, which no good completion can take back, and, while the card is there, stream_work queued or on its way |
| SessionGuarantees.OutInflightIsExact | tools/kernel/babyfacepro.c:618-624 | In such a session out_inflight is exactly the number of OUT URBs not taken off it |
| SessionStops.BadUrbsAddUp | tools/kernel/babyfacepro.c:585-624 | Over any run without a good completion and without a start or stop of a session, bad URBs of either queue add up in urb_err to the limit of three at least, however all else goes on beside them |
| SessionStops.WorkStopsTheSession | tools/kernel/babyfacepro.c:917-938 | Once stream_work has the mutex with the count at the limit and the card there, it lets go of it with both substreams stopped, no session and no URB in flight, however the completions come between its steps |
| SessionStops.AfterDisconnectNothingRuns | tools/kernel/babyfacepro.c:1807-1827 | In every reachable state after the disconnect, whatever the application called meanwhile, there is no session, no URB in flight and no substream that runs or is about to, one that a failed start left behind included |
| SessionStops.NextKeepsDown | tools/kernel/babyfacepro.c:1807-1827 | Every step keeps the substreams that disconnect is past from running |
| SessionLateFailure.LateFailureBreaksTheRate | tools/kernel/babyfacepro.c:886-915 | A run in which the exception happens: a START slips in before a submit fails, survives the kill, and hw_params then sets another rate under a running substream |
| SessionCalls.ParamsIsOneCall | tools/kernel/babyfacepro.c:1167-1293 | From any reachable state, however the completions of the URBs come between its steps, hw_params and the runtime the core writes after it leave exactly the fields that the whole call leaves, with its USB transfer succeeding or not; a refused call leaves the substream to hw_free |
| SessionCalls.FreeIsOneCall | tools/kernel/babyfacepro.c:1297-1310 | So it is with hw_free; its direction is no longer set up, the other is as it was, the session goes on if and only if there was one and the other direction is set up, and without it no URB is in flight |
| SessionCalls.PrepareIsOneCall | tools/kernel/babyfacepro.c:1315-1340 | And with prepare: a session that was up stays up, a new one is one that the direction fits, and otherwise everything is as it was with no URB in flight, a start that failed half way included |
| SessionCalls.ParamsStep | tools/kernel/babyfacepro.c:1189-1293 | Each step of hw_params, the kill loop and pcm_stop_both included, keeps what the rest of the call is going to leave |
| SessionCalls.CallRun | tools/kernel/babyfacepro.c:1167-1340 | Over every run of steps of a call and of the URBs, until the mutex is free |
| Delay.NoUnderflow | tools/kernel/babyfacepro.c:1410-1425 | The unsigned subtraction of bf_delay never goes below zero, whatever the clock, even when the 64-bit product has wrapped |
| Delay.EachDelay | tools/kernel/babyfacepro.c:1402-1425 | Each direction by itself, in numbers: capture is 16, 24 or 38 frames and what was recorded since the last IN completion, playback is 8 + 32 x the speed and all URBs in flight but one, less the same frames; those are time x rate to the frame, at most a URB, none up to the completion, and the subtraction never takes more than the queue |
| Delay.DelaysFollowTheClock | tools/kernel/babyfacepro.c:1374-1425 | From one instant to a later one the capture delay grows and the playback delay falls by the same frames, those that fit the time between until a URB is full |
| Delay.DelaysForExample | tools/kernel/babyfacepro.c:1410-1425 | 1 ms after a completion at 48 kHz with four URBs of 128 frames: 64 and 376 frames |
| Delay.RoundTripIsTheQueue | tools/kernel/babyfacepro.c:1374-1425 | In every reachable state two running substreams of one session each report that delay, for the OUT URBs that really are in flight, and the two add up to (OUT URBs in flight - 1) x urb_frames plus the device's own delays: the elapsed time cancels |
| Delay.MovedIsTimeTimesRate | tools/kernel/babyfacepro.c:1415-1419 | Up to 26 hours after a completion the moved frames are time x rate to the frame, at most one URB |
| Geometry.Probe | tools/kernel/babyfacepro.c:1555-1559 | The clamped module parameters are in range and whole groups of 8 frames, whatever was given |
| Geometry.LookupRate | tools/kernel/babyfacepro.c:63-71 | The search finds the line of the table for the rate, or nothing if there is none |
| Geometry.UrbFramesFindsAFit | tools/kernel/babyfacepro.c:991-1016 | The chosen size is whole packets, within the limits and not longer than the period; 0 is returned exactly when no size is |
| Geometry.UnsplitPeriodUsesTheFewestUrbs | tools/kernel/babyfacepro.c:991-1016 | Above the smallest size, without the split, the size is the largest number of whole packets of which the least possible number of URBs still fit in the period |
| Geometry.SplitPeriodHalvesTheUrb | tools/kernel/babyfacepro.c:971-1016 | With the split it is the largest of which twice that number fit |
| Geometry.QueueInWholeUrbs | tools/kernel/babyfacepro.c:1248-1261 | The queue is two periods in whole URBs, one URB less with the split, clamped to 2..nurbs |
| Geometry.ChosenSessionFitsItsPeriod | tools/kernel/babyfacepro.c:960-968 | bf_session_period of the chosen session is at most the period it was chosen for |
| Geometry.AcceptedPeriodHoldsTheQueue | tools/kernel/babyfacepro.c:1251-1257 | A period not below bf_session_period holds one URB, and two of it hold the whole queue, so no direction gets more queued than its buffer |
| PcmSetup.NewGeometry | tools/kernel/babyfacepro.c:1248-1279 | Any period for which bf_urb_frames finds a size gives a session of whole packets that serves that period |
| PcmSetup.Pcm.constructor | tools/kernel/babyfacepro.c:1555-1562 | The fields after probe: 48 kHz, the largest URBs, no user, no session |
| PcmSetup.WhenHwParamsRefuses | tools/kernel/babyfacepro.c:1167-1293 | -EBUSY is answered exactly when another process holds the clock and the rate differs or the period is below bf_session_period, -EIO exactly when the transfer of a new rate fails; a refused call leaves the fields alone, a failed transfer only stops the session |
| PcmSetup.WhatHwParamsDoes | tools/kernel/babyfacepro.c:1167-1293 | On success the rate is the one asked for, and a direction that chooses - it holds the clock, and the rate is new, it is alone, it chose before or its period is too short - gets its URBs; any other joins the session as it is, fits it and changes nothing but being counted |
| PcmSetup.NoSessionOfAnotherShape | tools/kernel/babyfacepro.c:1213-1284 | A session of another rate, URB size or count never stays |
| PcmSetup.AnotherProcessIsLeftAlone | tools/kernel/babyfacepro.c:1203-1246 | With the other direction set up by another process, hw_params changes neither rate nor URBs, stops no session and no substream, whatever is asked for |
| PcmSetup.Pcm.HwParams | tools/kernel/babyfacepro.c:1167-1293 | The call, its checks before the mutex included, on the fields: what it returns and leaves is that of the call as a function, the invariant stays, and an accepted direction has the rate of the session and is served by it |
| PcmSetup.Pcm.HwParamsLocked | tools/kernel/babyfacepro.c:1189-1293 | Its part under the mutex, in the order of its statements, with up to two kills |
| PcmSetup.AnyCalls | tools/kernel/babyfacepro.c:1167-1372 | Over any run of whole calls from probe on, stream_work and disconnect included, the fields are those of the calls one after the other, a running substream has a session at its own rate that serves its period, and stream_users is the number of directions set up |
| PcmSetup.Pcm.ChooseGeometry | tools/kernel/babyfacepro.c:1262-1283 | A new size or count stops the session first |
| PcmSetup.Pcm.KeepGeometry | tools/kernel/babyfacepro.c:1244-1291 | A direction whose period is not too short joins the session as it is |
| PcmSetup.Pcm.TakeGeometry | tools/kernel/babyfacepro.c:1261-1291 | A direction that chooses takes over rate, URB size and count, and is counted once |
| PcmSetup.Pcm.StopSession | tools/kernel/babyfacepro.c:752-795 | The kill and the stop leave no session and, if there was one, no running substream; nothing else changes |
| PcmSetup.Pcm.StreamWork | tools/kernel/babyfacepro.c:922-938 | stream_work, once it acts, stops both substreams, session or not, unless the card goes away |
| PcmSetup.Pcm.HwFree | tools/kernel/babyfacepro.c:1297-1310 | The direction is no longer set up, the session goes on if and only if there was one and the other direction is set up, and a direction that was not counted changes nothing of it |
| PcmSetup.TheLastUserEndsTheSession | tools/kernel/babyfacepro.c:1296-1310 | As a function on any fields whose users are counted: the session ends with its last user and with no other, and nothing but the direction's own setup and the count changes besides |
| PcmSetup.Pcm.Prepare | tools/kernel/babyfacepro.c:1315-1340 | prepare answers -EINVAL to exactly a direction that no longer fits the session, fails to start one exactly where it fits, there is none and the start fails, leaves the session alone when it fails, and otherwise there is one |
| PcmSetup.Pcm.Start | tools/kernel/babyfacepro.c:1342-1367 | START succeeds exactly if the session is live and the substream fits it |
| PcmSetup.Pcm.Disconnect | tools/kernel/babyfacepro.c:1807-1827 | After disconnect no session and no running substream |
| Ring.PlacesDiffer | tools/kernel/babyfacepro.c:495-496 | Positions of the stream less than a buffer apart have places of their own in the ring |
| Ring.OneBoundary | tools/kernel/babyfacepro.c:517-522 | A move of at most a period crosses at most one period boundary |
| Ring.CopyFrame | tools/kernel/babyfacepro.c:511-513 | memcpy and memset of one frame: the words both widths have, zeros for the rest, nothing else touched |
| Ring.CaptureFrame | tools/kernel/babyfacepro.c:497-516 | Writing one frame extends what the ring holds by that frame, the one it overwrites being a whole buffer old |
| Ring.FillNext | tools/kernel/babyfacepro.c:550-566 | One frame of a URB is the next of the ring, made to fit, and the frames before it stay |
| Ring.StillHolds | tools/kernel/babyfacepro.c:495-516 | The frame overwritten is one whole buffer old, so the ring still holds the last buffer_size frames |
| Ring.Substream.CaptureCopy | tools/kernel/babyfacepro.c:481-526 | After a URB the ring holds the last buffer_size frames of the device's stream, each at its position modulo the size, channels the device does not send being zero; the pointer and the period notification follow |
| Ring.Substream.CaptureUrb | tools/kernel/babyfacepro.c:629-642 | Of a URB all whole frames are taken, frames x 4 x words <= actual_length < (frames + 1) x 4 x words, and put end to end they are its data; nothing of a substream that does not run |
| Ring.Substream.PlaybackCopy | tools/kernel/babyfacepro.c:528-577 | A URB carries the next frames of the ring in order, its unused words are zero, nothing past them is touched |
| Ring.Substream.FillUrb | tools/kernel/babyfacepro.c:720-737 | A URB that nothing plays into carries silence |
| Ring.Substream.Advance | tools/kernel/babyfacepro.c:517-523 | A notification is given exactly when a boundary was crossed, and the notifications total hw_ptr / period_size |
| Ring.Substream.Restart | tools/kernel/babyfacepro.c:1333-1338 | prepare and START begin the count again |
| Ring.PlaybackAll | tools/kernel/babyfacepro.c:528-750 | Over any sequence from a session's start on of prepare, START, STOP, new sessions, writes of the application and good or bad completions of any URB: at any time, since prepare or START last set the pointer back, the frames put into the URBs are frame after frame those of the ring, frame n being frame n modulo the size of the ring as it was by then, made to fit, which for each URB is said sample by sample; a good completion without a running substream leaves silence; a bad one leaves what the URB carried before, zeros if the session has just started; and the periods told are, summed over the times the pointer was set back, the frames since / period_size |
| Ring.CarriedSamples | tools/kernel/babyfacepro.c:550-566 | Sample c of frame f of a URB is channel c of the frame of the ring f after the pointer, zero for a channel the ring does not have |
| Ring.Step | tools/kernel/babyfacepro.c:528-750 | One such event on the buffers of the URBs, the ring and the pointer |
| Ring.Complete | tools/kernel/babyfacepro.c:700-737 | One completion: audio, silence, or, where it came back bad, the data left as it was |
| Ring.ClearBuffers | tools/kernel/babyfacepro.c:853-854 | A session starts with silence in every URB |
| Ring.CaptureAll | tools/kernel/babyfacepro.c:481-526 | Over any sequence of prepare, START, STOP and good or bad completions: put end to end, the samples that came in good URBs while the substream ran since the pointer was last set back - all of each URB but for what is left of a frame at its end - are hw_ptr frames, and the ring has the last buffer_size of them, channel c of frame n at its place modulo the size, zero for a channel the device does not send; the periods told are, summed over the times the pointer was set back, the frames since / period_size |
| Ring.CapturedIsTheSamples | tools/kernel/babyfacepro.c:629-642 | No sample of the whole frames is lost, none comes twice, and they stay in order |
| Ring.RingShows | tools/kernel/babyfacepro.c:495-516 | What the ring holds of a stream, sample by sample |
| Ring.CaptureEvent | tools/kernel/babyfacepro.c:629-684 | One such event on the ring and the pointer |
| Seen.FoundIsRecent | tools/kernel/babyfacepro.c:296-299 | The table holds a key exactly if it is among the eight recorded last |
| Seen.Recorded | tools/kernel/babyfacepro.c:300-301 | Recording a new key in the next slot keeps the table standing for the log |
| Seen.RecentIsAQueue | tools/kernel/babyfacepro.c:273-282 | The recent keys are a first-in first-out queue of length 8 |
| Seen.RecentHasNoRepeat | tools/kernel/babyfacepro.c:289-303 | It never holds a unit twice |
| Seen.Units.SeenBefore | tools/kernel/babyfacepro.c:289-303 | True exactly if the unit's 63-character key is among the last eight recorded on a miss; a miss records it |
| MasterCurve.OctaveOf | tools/kernel/babyfacepro-ctl.c:120-138 | The C division and remainder with their correction are the octave below and the twelfth in it |
| MasterCurve.Master16Monotone | tools/kernel/babyfacepro-ctl.c:115-138 | The 16-bit curve never falls, between octaves as within one, and stays in 1..0x4000 |
| MasterCurve.RegistersMonotone | tools/kernel/babyfacepro-ctl.c:141-154 | A higher step is never quieter in either register, and only step 0 is mute; from -64 dB up the 8-bit one rises by one a step, below it stays at its least |
| MasterCurve.DimIsNotOnTheCurve | tools/kernel/babyfacepro-ctl.c:333-359 | The pair DIM and the default mixer write is the curve's at -20 dB in the 8-bit register and is on the curve nowhere in the 16-bit one: a cache replayed after the default mixer writes 0x032d, not 0x0333 |
| MixerMap.AddressesAreDistinct | tools/kernel/babyfacepro-ctl.c:518-536 | Masters, crosspoints and cross registers of the six outputs all have addresses of their own, below the flag bits |
| MixerMap.FlagIsSeparate | tools/kernel/babyfacepro-ctl.c:36-49 | The transaction flag can be told from the index whatever its count |
| MixerMap.SourcesAndCrossesPartition | tools/kernel/babyfacepro-ctl.c:57-94 | Every one of the 24 offsets of a side is one source's or one that bf_crosspoint_clear_cross zeroes, never both |
| MixerMap.PanelGainIsAMaster | tools/kernel/babyfacepro-ctl.c:2601-2607 | The panel's gain registers are the addresses of the 8-bit masters of outputs 3 and 4 |
| MixerState.OneWrite | tools/kernel/babyfacepro-ctl.c:43-49 | A write changes its own register and no other |
| MixerState.WantedWrites | tools/kernel/babyfacepro-ctl.c:271-302 | Writing what the cache means mends exactly the registers written, whatever they held |
| MixerState.WhatAMasterHolds | tools/kernel/babyfacepro-ctl.c:141-160 | What the registers 0x0004.. and 0x03e0.. of an output hold where they agree with the cache: 0x3b and 0 when muted, whatever DIM is, else DIM's pair on the Phones, else the volume |
| MixerState.WhatAPointHolds | tools/kernel/babyfacepro-ctl.c:57-94 | What the registers of a crosspoint hold: one offset on both sides for the mono sources, two neighbours for the others, zero in what is left between them |
| MixerState.AnyWrites | tools/kernel/babyfacepro-ctl.c:43-49 | Any writes leave all other registers as the cache has them |
| MixerState.MasterChange | tools/kernel/babyfacepro-ctl.c:361-422 | A new master, mute or DIM concerns the four master registers of its output only |
| MixerState.PointChange | tools/kernel/babyfacepro-ctl.c:562-592 | A new crosspoint concerns its two registers only |
| MixerState.CheckedWrites | tools/kernel/babyfacepro-ctl.c:391-410 | After a failure part way, only the registers of that operation may be wrong |
| MixerState.UncheckedWrites | tools/kernel/babyfacepro-ctl.c:2331-2350 | So it is where the results of the writes are ignored |
| Mixer.Mixer.MasterPut | tools/kernel/babyfacepro-ctl.c:361-422 | Which values are refused; on success the cache and the four registers of the output agree, with mute and DIM applied; on failure the cache is unchanged and only those registers are in doubt; DIM's saved volume follows |
| Mixer.Mixer.MutePut | tools/kernel/babyfacepro-ctl.c:449-491 | The same for the mute switch, the volume being kept |
| Mixer.Mixer.DimApply | tools/kernel/babyfacepro-ctl.c:1752-1797 | DIM puts the Phones at the fixed pair or back at the volume kept, and is undone in the cache when a write fails, its registers then being in doubt |
| Mixer.Mixer.DimPut | tools/kernel/babyfacepro-ctl.c:1799-1813 | Setting DIM to what it is writes nothing |
| Mixer.Mixer.SendMasters | tools/kernel/babyfacepro-ctl.c:387-410 | The order of the four writes, and that the first failure ends it |
| Mixer.Mixer.SendPoint | tools/kernel/babyfacepro-ctl.c:518-536 | The two writes of a crosspoint, without the flag for AN1/2 |
| Mixer.Mixer.XpointPut | tools/kernel/babyfacepro-ctl.c:562-592 | The crosspoint control, as for the masters |
| Mixer.Mixer.BalanceWheel | tools/kernel/babyfacepro-ctl.c:2655-2689 | The balance wheel on the registers and the cache: a muted output is only muted again |
| Mixer.Mixer.OutWheel | tools/kernel/babyfacepro-ctl.c:2495-2549 | The OUT wheel follows the count of the firmware, which the lemmas on a turn describe, and writes the 16-bit masters only, so those keep agreeing with the cache |
| Mixer.Mixer.WheelWrite | tools/kernel/babyfacepro-ctl.c:2380-2403 | While the wheel turns only the 16-bit pair is written, the cache follows, DIM's saved volume too |
| Mixer.Mixer.Firmware | tools/kernel/babyfacepro-ctl.c:2356-2376 | What the firmware does to an analog level touches no register but that output's 8-bit pair |
| Mixer.Mixer.Resync | tools/kernel/babyfacepro-ctl.c:2560-2599 | At rest both pairs are written again, if and only if nobody else set the master and both sides are at -64 dB or above |
| Mixer.Mixer.MixWheel | tools/kernel/babyfacepro-ctl.c:2249-2312 | The MIX wheel sets the crosspoints of the selected sources - left, right or both of the IN pair shown, AS1/2 for Opt - to one level of the fader curve on both sides, every other stays as it was, in the cache and, when the writes go out, on the device |
| Mixer.SelectedOnly | tools/kernel/babyfacepro-ctl.c:2258-2274 | Which crosspoints that are, said of each source |
| Mixer.Mixer.MixClick | tools/kernel/babyfacepro-ctl.c:2277-2289 | One source of it, whose failures nobody notices |
| Mixer.Mixer.PanelWrite | tools/kernel/babyfacepro-ctl.c:2606-2643 | A write to a panel gain register leaves the 8-bit master below it with that value: outputs 3 and 4 lose it |
| Mixer.Mixer.GainClick | tools/kernel/babyfacepro-ctl.c:2609-2644 | The IN wheel moves the cached gain within its range and overwrites that master |
| Mixer.Mixer.ApplyMasters | tools/kernel/babyfacepro-ctl.c:271-302 | From any contents the masters of outputs without DIM agree with the cache again, as far as the writes go: the first that fails ends it, and the outputs before are known |
| Mixer.Mixer.ClearCross | tools/kernel/babyfacepro-ctl.c:57-77 | Every cross register of the block is zero afterwards, unless one of its twenty writes fails, which ends it |
| Mixer.Mixer.ApplyPoints | tools/kernel/babyfacepro.c:332-344 | From any contents every register of the six blocks agrees with the cache again, as far as the writes go |
| Mixer.Mixer.Resume | tools/kernel/babyfacepro.c:309-345 | From any register contents the replay brings every master and every register of the six blocks back to what the cache means if all its 312 writes of them succeed, and the five of DIM where it is on; it succeeds only then, and up to the first write that fails the outputs done are known |
| Mixer.ReplayReproduces | tools/kernel/babyfacepro.c:304-308 | A replay gives every register the value it had before, unless that one was in doubt |
| Mixer.Mixer.constructor | tools/kernel/babyfacepro-ctl.c:162-166 | A device with arbitrary contents: every register is in doubt |
| MixerRuns.AnyRun | tools/kernel/babyfacepro-ctl.c:343-592 | After a resume from any contents and any run of successful master, mute, DIM, balance wheel, OUT wheel and its resync, crosspoint, MIX wheel, gain wheel and resume operations, the cache is that of the operations one after the other, every 16-bit master, every crosspoint and every cross register has the value the cache means, and so has every 8-bit master that neither the OUT wheel nor a panel gain register has put in doubt since its output was last written |
| MixerRuns.Perform | tools/kernel/babyfacepro-ctl.c:343-592 | One such operation on the cache, on what the wheels keep and on the registers that may be in doubt |
| OutWheel.ClickMoves | tools/kernel/babyfacepro-ctl.c:2471-2493 | Inside the range a click moves both sides by exactly its step and the opposite step takes them back; the louder side stops at +6 dB, mutes from less than a step above the floor and comes back from there to a step above it; the difference stays |
| OutWheel.ClicksMove | tools/kernel/babyfacepro-ctl.c:2524-2531 | The clicks of a poll go on, each by half a dB at least, until the louder side is at the end |
| OutWheel.OneClick | tools/kernel/babyfacepro-ctl.c:2420-2549 | A turn of one click in the steps of the masters: the louder one moves by 1, 2, 3, 4 or 6 half dB by its level, 1 from -9.5 dB up, twice that when fast, down to mute and up to +6 dB |
| OutWheel.ClickAndBack | tools/kernel/babyfacepro-ctl.c:2432-2493 | A click and the click back, neither cut short, give the levels again if and only if both have the same step |
| OutWheel.TurnByClicks | tools/kernel/babyfacepro-ctl.c:2524-2531 | A poll of several clicks is a poll of the first and one of the others, fast |
| OutWheel.TurnsReachTheEnd | tools/kernel/babyfacepro-ctl.c:2444-2549 | Turned one way over any polls, the louder master moves by as many steps as there were clicks at least, or gets to the end |
| OutWheel.TurnKeeps | tools/kernel/babyfacepro-ctl.c:2495-2549 | So does a poll with any number of clicks, read back through the masters it wrote |
| OutWheel.TurnsKeepTheBalance | tools/kernel/babyfacepro-ctl.c:2444-2549 | Over every sequence of turns the tracked difference is constant, each step written is in 0..193, and whenever both sides can be heard their steps differ by what they did at first |
| OutWheel.HiddenBalanceReturns | tools/kernel/babyfacepro-ctl.c:2471-2476 | 193 clicks up, in any polls from anywhere, bring the louder master to the last step and a balance the floor had hidden back; as many down mute both sides |
| OutWheel.LevelsInRange | tools/kernel/babyfacepro-ctl.c:2460-2469 | Whatever other writers set the master to, the wheel reads a louder side it can start from |
| OutWheel.BalancedKeepsTheLouder | tools/kernel/babyfacepro-ctl.c:2646-2689 | The balance wheel never changes the louder side, always moves the image the way it turns until the other side is muted, gets there in as many clicks as the sides are apart from it at most, and writes valid steps |
| OutWheel.BalanceClick | tools/kernel/babyfacepro-ctl.c:2655-2689 | One click changes the difference of the masters by 1, 2, 3, 4 or 6 by what it is, until the quieter side is muted |
| OutWheel.BalanceByClicks | tools/kernel/babyfacepro-ctl.c:2672-2688 | A poll of several clicks does what as many polls of one click do |
| OutWheel.ClickInPlace | tools/kernel/babyfacepro-ctl.c:2477-2493 | The two levels in place |
| OutWheel.TurnLevels | tools/kernel/babyfacepro-ctl.c:2524-2531 | The loop over the clicks of a poll, the first of which may be slow |
| OutWheel.TurnBalance | tools/kernel/babyfacepro-ctl.c:2672-2688 | The loop of the balance wheel |
| Fader.InterpolationRises | tools/kernel/babyfacepro-ctl.c:895-930 | For any table rising in both columns the interpolation never falls, over all integers |
| Fader.ExactAtPoints | tools/kernel/babyfacepro-ctl.c:895-930 | It is exact at every point |
| Fader.BoundedByNeighbours | tools/kernel/babyfacepro-ctl.c:895-930 | Between two points it stays between their values; above the table it is the last |
| Fader.InterpolationRange | tools/kernel/babyfacepro-ctl.c:895-930 | It stays between the value below the table and the last point's |
| Fader.PointsComeBack | tools/kernel/babyfacepro-ctl.c:895-930 | Each direction undoes the other at every point |
| Fader.MiddleComesBack | tools/kernel/babyfacepro-ctl.c:895-930 | Half way between points 2 apart the value comes back if and only if the other column has room for one |
| Fader.CurveRises | tools/kernel/babyfacepro-ctl.c:865-892 | The driver's curve rises in both columns, from -62 to +6 dB |
| Fader.LevelsComeBack | tools/kernel/babyfacepro-ctl.c:895-930 | On the driver's curve a level in half dB survives the fader if and only if it is a whole dB or lies between points whose raw values are at least 2 apart: all but nine |
| Fader.EndsOfTheFader | tools/kernel/babyfacepro-ctl.c:895-930 | Below -62 dB the fader is zero, from +6 dB on 0x2d41, 0 dB is 0x16a0, and read back a raw value below 3 is off |
| Fader.FaderMonotone | tools/kernel/babyfacepro-ctl.c:895-930 | Both directions are monotone and stay in range for every integer |
| Fader.ComputeRaw | tools/kernel/babyfacepro-ctl.c:914-930 | The loop from dB to raw |
| Fader.ComputeDb2 | tools/kernel/babyfacepro-ctl.c:895-911 | The loop from raw to dB |
| Fader.Search | tools/kernel/babyfacepro-ctl.c:900-908 | The search for the segment |
| Panel.Driver.SelLoad | tools/kernel/babyfacepro-ctl.c:2179-2186 | The selection of the pair shown, or none |
| Panel.Driver.Tick | tools/kernel/babyfacepro-ctl.c:2767-2900 | A readback switches the pair and then takes the edge of a press; the selection stays known exactly if the entry of the pair shown is, and equal to it, and every index is in range |
| Panel.Driver.PressSelect | tools/kernel/babyfacepro-ctl.c:2862-2884 | The first press after a switch only shows the selection |
| Panel.PressesGoRound | tools/kernel/babyfacepro-ctl.c:2862-2890 | A press while the LEDs are dark only shows the selection, then left, right, both and none follow each other on the pair shown alone, and four presses come round |
| Panel.Driver.SwitchTo | tools/kernel/babyfacepro-ctl.c:2840-2855 | An IN switch loads the pair's own selection and disarms |
| Panel.Driver.SelectPut | tools/kernel/babyfacepro-ctl.c:3148-3186 | The control sets an entry, arms the pair shown unless it is a restore, and is ignored for a restore after a re-probe |
| Panel.Driver.Restart | tools/kernel/babyfacepro-ctl.c:3016-3039 | Starting the panel keeps the entries and disarms |
| Panel.EventKeepsFollowing | tools/kernel/babyfacepro-ctl.c:2862-2890 | Beside a model of the unit: every press, switch and true setting keeps each known entry the unit's own |
| Panel.SelectionIsTheUnits | tools/kernel/babyfacepro-ctl.c:2832-2890 | So after any run of presses, switches, true settings and resumes the driver acts on the channels the unit shows, or on none |
| Panel.FirstFollows | tools/kernel/babyfacepro-ctl.c:2767-2784 | Such a run begins with the first readback that shows the pair of the unit: what is known by then is true, and after probe nothing is |
| Panel.TickIsItsEvents | tools/kernel/babyfacepro-ctl.c:2832-2890 | A readback does for the driver exactly what the switch and the press it shows do |
| Panel.Watch | tools/kernel/babyfacepro-ctl.c:2767-2890 | From probe on, over any readbacks, true settings of the control and resumes in any order, the driver knows nothing of the unit that is not so |
| Cordic.CordicConverges | tools/kernel/babyfacepro-ctl.c:3360-3378 | For any table whose entries are at most the later ones together plus the last, and any angle within its sum, the rest of the angle is at most the last entry |
| Cordic.TableConverges | tools/kernel/babyfacepro-ctl.c:3346-3354 | The driver's table is one, and its sum is beyond pi/2 |
| Cordic.AngleIsReached | tools/kernel/babyfacepro-ctl.c:3360-3378 | On [0, pi/2] the loop turns the vector by the angle to one unit |
| Cordic.StepKeepsLength | tools/kernel/babyfacepro-ctl.c:3366-3374 | One rotation lengthens the vector by its CORDIC factor and by what the shifts drop, no more |
| Cordic.SinCosBounded | tools/kernel/babyfacepro-ctl.c:3360-3378 | |sin| and |cos| are at most 2^27 + 128 |
| Cordic.StepKeepsFloor | tools/kernel/babyfacepro-ctl.c:3366-3374 | Nor does a rotation shorten the vector by more than the shifts drop |
| Cordic.OnTheCircle | tools/kernel/babyfacepro-ctl.c:3360-3378 | sin^2 + cos^2 is 2^54 to within 0x430000000, one part in a million, whatever the angle |
| Cordic.SineFloor | tools/kernel/babyfacepro-ctl.c:3360-3378 | On [0, pi/2] neither the sine nor the cosine is ever below -0.0013, rounding and residual included |
| Cordic.TurnedIsKept | tools/kernel/babyfacepro-ctl.c:3366-3374 | From any point of the loop on, the vector turned by the angle that is left, taken as its tangent, is the result to an explicit loss |
| Cordic.SineOfTheAngle | tools/kernel/babyfacepro-ctl.c:3360-3378 | On each eighth of [0, pi/2] the results are between the true sines and cosines at its ends, to one in a hundred |
| Cordic.ZeroAtTheEnds | tools/kernel/babyfacepro-ctl.c:3360-3378 | sin 0 and cos pi/2 are zero to 0.0014 |
| Cordic.SinCos | tools/kernel/babyfacepro-ctl.c:3360-3378 | The loop in 64 bits, with no overflow, computes the functions the lemmas are about |
| EqBand.SeriesMonotone | tools/kernel/babyfacepro-ctl.c:3381-3393 | The rounded series of e^x rises with x |
| EqBand.MantissaInOctave | tools/kernel/babyfacepro-ctl.c:3383-3393 | The series stays within one octave |
| EqBand.Exp2Monotone | tools/kernel/babyfacepro-ctl.c:3380-3395 | bf_exp2 is monotone on [-2, 2], across the octaves too |
| EqBand.AmplitudeRange | tools/kernel/babyfacepro-ctl.c:3463-3465 | For gains of +-24 dB the amplitude is in 1/4..3.9811 and its root in 1/2..1.9953 |
| EqBand.OmegaRange | tools/kernel/babyfacepro-ctl.c:3430-3432 | Up to 20 kHz and from 32 kHz on, 2 pi f / fs is at most 3 pi / 2 |
| EqBand.AnglesAreReduced | tools/kernel/babyfacepro-ctl.c:3433-3461 | Both angles given to bf_sincos are in [0, pi/2] |
| EqBand.BellIsSound | tools/kernel/babyfacepro-ctl.c:3467-3475 | Bell: positive divisors, no quotient near the limit |
| EqBand.LowShelfIsSound | tools/kernel/babyfacepro-ctl.c:3476-3489 | Low shelf: the same |
| EqBand.HighShelfIsSound | tools/kernel/babyfacepro-ctl.c:3490-3498 | High shelf: the same |
| EqBand.ShelfGain | tools/kernel/babyfacepro-ctl.c:3483-3497 | b0 < 16 a0 even at +24 dB, where the exact ratio is 15.85 and the words are rounded |
| EqBand.BiquadIsSound | tools/kernel/babyfacepro-ctl.c:3401-3500 | For every accepted type, frequency, Q, gain and rate |
| EqBand.WordsFit | tools/kernel/babyfacepro-ctl.c:3501-3508 | All five words fit 32 bits, the shared scale is positive |
| EqBand.WordAccuracy | tools/kernel/babyfacepro-ctl.c:3503-3507 | A stored word is the nearest to its quotient when that is positive; a negative one is up to one and a half units too high |
| EqBand.ComputeExp2 | tools/kernel/babyfacepro-ctl.c:3381-3396 | bf_exp2 in 64 bits, with no overflow |
| EqBand.ComputeCosine | tools/kernel/babyfacepro-ctl.c:3433-3449 | The reduction of the angle and the signs of its quadrant |
| EqBand.ComputeBandWords | tools/kernel/babyfacepro-ctl.c:3401-3508 | The whole band in 64 bits: no overflow, no division by zero, no cast that loses a bit, and the words of the specification |
| EqGain.OmegaIsTheAngle | tools/kernel/babyfacepro-ctl.c:3430-3432 | w0 is 2 pi f / fs, from below to eight units |
| EqGain.AlphaAngleIsNearest | tools/kernel/babyfacepro-ctl.c:3451-3463 | The angle of alpha is w0 / 2Q to the nearest, held to pi/2 |
| EqGain.CosineOfTheAngle | tools/kernel/babyfacepro-ctl.c:3433-3449 | After the reduction and its signs the cosine is that of the angle in every quadrant, to one in a hundred |
| EqGain.SignOfTheCosine | tools/kernel/babyfacepro-ctl.c:3430-3449 | It is not below zero, to 0.0014, up to a quarter of the rate, and not above from there to three quarters |
| EqGain.AmplitudeOfTheGain | tools/kernel/babyfacepro-ctl.c:3464-3466 | The amplitude rises with the gain between 10^(g/40) at -24, -6, 0, 6, 12 and 24 dB, to a thousandth, is above 1 for gains above 0 dB only, and its root is the amplitude of half the gain |
| EqGain.BandGains | tools/kernel/babyfacepro-ctl.c:3468-3500 | By type, to explicit bounds of the rounding: a bell has gain 1 at 0 Hz and at half the rate and A^2 at its frequency; a low shelf A^2 at 0 Hz and 1 at half the rate; the numerators of a high shelf are those for 1 at 0 Hz and A^2 at half the rate, but its denominator at 0 Hz is the one for half the rate and the other way round |
| EqGain.BandWidth | tools/kernel/babyfacepro-ctl.c:3468-3500 | What alpha makes of the outer coefficients: alpha A and alpha / A for a bell, 2 sqrt(A) alpha below and A times that above for a shelf |
| EqGain.WordsGiveTheGain | tools/kernel/babyfacepro-ctl.c:3401-3508 | The same of the five words of the block, as the device puts them together: an inactive band does nothing, a bell and a low shelf give their gains at the ends and in the middle, a high shelf has its denominators exchanged |
| EqGain.HighShelfAtZero | tools/kernel/babyfacepro-ctl.c:3493-3499 | How far a high shelf is from 0 dB at 0 Hz: by 4 (A (1 - cos w0) - (1 + cos w0)), to the rounding |
| EqGain.HighShelfIsFlatOnlyThere | tools/kernel/babyfacepro-ctl.c:3493-3499 | So it is flat there, to any number of units, if and only if cos w0 = (A - 1) / (A + 1) to as many |
| EqGain.HighShelfCutsTheBass | tools/kernel/babyfacepro-ctl.c:3493-3499 | With any gain and any corner up to fs / 32 it cuts 0 Hz by more than 24 dB |
| EqGain.HighShelfForExample | tools/kernel/babyfacepro-ctl.c:3493-3499 | As a high shelf of +6 dB at 1 kHz does at 48 kHz |
| EqBlock.LeRoundTrip | tools/kernel/babyfacepro-ctl.c:3559-3565 | Four little-endian bytes give the word back |
| EqBlock.BuiltDecodes | tools/kernel/babyfacepro-ctl.c:3550-3566 | A block that holds its words at their offsets decodes to its setting |
| EqBlock.BuildBlock | tools/kernel/babyfacepro-ctl.c:3550-3566 | The block built decodes to exactly the channel, slope, band words, shared scale and low-cut word given, and has them byte by byte at 0, 1, 2, 0x04, 0x14, 0x24, 0x34 and 0x38, zeros after them |
| EqBlock.BuiltLies | tools/kernel/babyfacepro-ctl.c:3550-3566 | The layout in numbers: which bytes make up which word |
| Equalizer.LowCutFits | tools/kernel/babyfacepro-ctl.c:3526-3548 | The low-cut word fits 32 bits for every frequency and slope |
| Equalizer.LowCutIsNearest | tools/kernel/babyfacepro-ctl.c:3522-3548 | The word is the nearest to 11508 f 11656 / (11656 + f) for f the frequency times the factor of its slope, and 0x04000000 without a low cut |
| Equalizer.LowCutRises | tools/kernel/babyfacepro-ctl.c:3522-3548 | A higher cut is never a smaller word |
| Equalizer.SlopeIsPoles | tools/kernel/babyfacepro-ctl.c:3510-3520 | A slope has a pole for each 6 dB, and n poles are 2^n - 1 |
| Equalizer.SharedIsTheLast | tools/kernel/babyfacepro-ctl.c:3630-3640 | The shared scale is the fifth word of the last band with a type and a gain, 2^27 if none has |
| Equalizer.PutsReadBack | tools/kernel/babyfacepro-ctl.c:3703-3888 | What is put into a parameter reads back, and each of the fourteen others as it was |
| Equalizer.ParamsAreTheSettings | tools/kernel/babyfacepro-ctl.c:3703-3770 | Two strips whose fifteen parameters read the same have the same settings |
| Equalizer.SettingFits | tools/kernel/babyfacepro-ctl.c:3591-3612 | Every setting of a strip fits its block |
| Equalizer.CacheIsSetting | tools/kernel/babyfacepro-ctl.c:3591-3612 | What is uploaded from the stored words is what the settings mean: the identity when off, a slope only with a low cut |
| Equalizer.WhatTheDeviceHas | tools/kernel/babyfacepro-ctl.c:3591-3612 | A block that says what the settings of a strip mean, byte by byte: the words of its bands, the shared scale, the low cut and its poles; of a strip that is off zeros, a scale of 1 and no cut, and no poles without a low cut |
| Equalizer.Strips.constructor | tools/kernel/babyfacepro-ctl.c:3897-3906 | Flat and off, with the neutral Q |
| Equalizer.Strips.WriteStrip | tools/kernel/babyfacepro-ctl.c:3591-3612 | A strip whose two uploads succeed is on the device |
| Equalizer.Strips.UpdateStrip | tools/kernel/babyfacepro-ctl.c:3621-3643 | Recomputed for the current rate, the shared scale being that of the last band with a type and a gain |
| Equalizer.Strips.Reupload | tools/kernel/babyfacepro-ctl.c:3645-3660 | Every strip, whatever becomes of the others |
| Equalizer.Strips.ChangeRate | tools/kernel/babyfacepro.c:1228-1236 | After a change of rate exactly the strips whose uploads succeeded are on the device at the new rate |
| Equalizer.CastTakes | tools/kernel/babyfacepro-ctl.c:3787-3827 | The value is cast to 32 bits before its range is tested: a put takes exactly the values that are some whole number of 2^32 away from one in range |
| Equalizer.CastAgrees | tools/kernel/babyfacepro-ctl.c:3787-3827 | The cast decides as the range itself would if and only if the value is no other whole number of 2^32 away from one in range, as no 32-bit value is |
| Equalizer.WideValueIsTaken | tools/kernel/babyfacepro-ctl.c:3787-3827 | A Q of 0x100000064 is taken, and stored as 100 |
| Equalizer.Strips.Put | tools/kernel/babyfacepro-ctl.c:3772-3888 | A value is refused if and only if what its cast to 32 bits gives is out of range; a put that changes something and succeeds puts the strip on the device; one that fails keeps the new value in the cache, so repeating it uploads nothing |
| Equalizer.AnyRun | tools/kernel/babyfacepro-ctl.c:3645-3888 | After any run of puts and changes of rate whose uploads succeed, the settings are those of the puts one after the other, and the two blocks last uploaded for every strip updated at least once decode to what its settings mean at the current rate |
| ExtractLaws.Extractor.Visit | tools/kernel/extract_laws.py:114-124 | The walk ends; if it finishes it has added only what the name reaches, each definition after those it uses; otherwise its message is a path that comes back to one of its names |
| ExtractLaws.Extractor.Extract | tools/kernel/extract_laws.py:112-129 | It finishes if and only if every wanted name is defined and no cycle is reachable; then the output has no duplicates, holds exactly what is reachable and puts every definition after those it uses; it reports a cycle, or a name not defined, if and only if the first wanted name that is not defined or reaches a cycle is of that kind, and the report is of that name |
| ExtractLaws.OrderedHasNoCycle | tools/kernel/extract_laws.py:119-124 | No path from a name of such an output loops |
| ExtractLaws.OrderedIsClosed | tools/kernel/extract_laws.py:119-124 | Such an output holds all that its names reach |
| ExtractLaws.CyclesHaveTwoDefinitions | tools/kernel/extract_laws.py:119-121 | A cycle reported has two definitions or more, since a name is no dependency of itself |
| ExtractLaws.Appended | tools/kernel/extract_laws.py:123-124 | Appending a definition after all it uses keeps the order |

## Left out

- SessionGuarantees.RunningFitsTheSession: says nothing of a substream that a start failing after it set streaming left behind; those are the subject of SessionLeftBehind.
- SessionLeftBehind.FailedStartLeavesBehind: an application that stops the substream itself while the failed start cleans up is left out.
- Session: a START of a substream whose own hw_params is at work. Two threads of one process could make these calls, but then a hw_params that fails would be followed by a hw_free of a running substream, which the core is taken not to make.
- Session: `alt` and `frame_bytes` are written together with `rate`, since all three are read under the mutex or fit any session; the wait before a session trigger and the timestamps are not steps.
- Session: START is possible on any substream that is set up; the core's PREPARED state, which only takes runs away, is not modelled.
- SessionCalls.ParamsIsOneCall: is about a call beside which only URBs complete; a START or STOP of the other direction meanwhile is covered by SessionGuarantees.RunningFitsTheSession instead.
- Delay.MovedIsTimeTimesRate: does not hold once time x rate needs more than 64 bits, a day after the last completion.
- Mixer.Mixer.Resume: counts its own writes only; the preamp, loopback, FX send and clock registers that it also writes have other addresses and are not followed.
- Mixer.Mixer.MixWheel: the value for the level display is a parameter.
- Mixer.Mixer.GainClick: the packing of a gain into its register is a parameter.
- MixerRuns.AnyRun: operations whose writes fail are left to the contracts of the single operations.
- Panel.Watch: a run that begins with readbacks showing no IN pair, or in which a resume's first readback shows none although the pair changed, is left out.
- Ring.PlaybackAll: the URB size stays as it is, a session with another one is another run; a killed URB, with which nothing is done, is no event, and whether a URB is sent again after its completion is the subject of module Session.
- Ring.Substream.CaptureCopy: the application does not write the capture ring between two completions.
- ExtractLaws.Extractor.Extract: the identifiers of each definition are given; finding definitions and stripping comments in C text is not modelled, nor is Python's recursion limit.
- Phase, split, trim, width and MS, which overwrite crosspoint registers and each other by design.
- The time rule that makes a click of the OUT wheel fast, and the law of the level display: whether a click is fast is a parameter.
- The MIX latch, SET, DIM and OUT of the panel, and the notifications to clients.
- The default mixer as an operation: its crosspoints are a replay of a cache, its masters are `MasterCurve.DimIsNotOnTheCurve`.
- EqGain.CosineOfTheAngle: the sine and the cosine are compared with the true ones at eighths of a right angle, to one in a hundred; how much closer they are is Cordic.OnTheCircle and Cordic.AngleIsReached.
- EqGain.WordsGiveTheGain: gains are those of one band on its own, at the ends and at the frequency of a bell; the scale that several bands share on the device is Equalizer.SharedIsTheLast.
- Control registration, info and most get callbacks, names, TLVs, probe and USB plumbing: no claim that is hard.
- Suspend while calls are in progress.
- The probes, captures, selftests and analysis scripts under tools.
