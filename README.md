# Audio file player transport: a Dafny model

This project models the logic of a small desktop audio-file player built on an
application framework. The repository holds four near-identical variants of the
player's main component (`MainContentComponent`):

- `Source/UnixMatrix.h`: a five-state transport controller, a volume gain, a peak
  level taken from every rendered block, and a 64-slot level history that a timer
  fills and `paint` draws as a scrolling meter.
- `Source/Old99AppleFeel.h` and `Source/AppleFeel.h`: the same five-state
  controller without gain or meter.
- `Source/PlayingSoundFilesTutorial_01.h`: a four-state controller with only Play
  and Stop. Here Stop goes through a real `Stopping` state, and only the transport's
  change notification completes the move to `Stopped`.

The controller's transitions are written once as functions on a `Controls` record
(modules `TransportController` and `TutorialController`). The record holds the state,
the buttons' enabled flags, the transport (`playing`, `position` in milliseconds)
and the optional reader source (`file`, `looping`). Each variant is a class
`MainContentComponent` whose fields are the component's own. Its handlers update
those fields step by step, as the C++ does. Each handler is proved to leave the
fields exactly as the matching function says (`ensures Controls() == ...`).

On top of these functions the model proves properties over event sequences.
An event is a button press, an open-dialog outcome, the transport's change
notification, or the transport stopping by itself. The proofs show:

- the five-state controller never enters `Stopping`;
- an invariant ties each state to its button flags;
- while Paused, notifications are ignored;
- Stop and Pause are idempotent;
- in the tutorial, Stopped is reached only through a notification.

The audio side works on a two-dimensional `array2<real>` of channels × samples.
It covers clearing the active region, applying the gain in place, and the peak
scan. The meter history is a `const` array of 64 levels plus a write index. Its
value view `MeterHistory.Ring` has `Push` (one timer tick) and `Bars` (what
`paint` draws). A proof shows the bars always show the last 64 levels, oldest first.
The position readout `MM:SS:mmm` is proved to read back to the position modulo an hour.

Behaviour of the code that is easy to miss:

- Opening a file does not push the loop toggle onto the new reader. The toggle
  reaches the reader only at the next Play or Loop click.
- Opening a file while Playing leaves the state at Playing. It only resets the
  three flags to Play on, Pause and Stop off.
- Entering Starting disables Pause as well as Play. The Play handler enables
  Pause again right after.
- The timer label chooses between the readout and "Paused"/"Stopped" by asking
  whether the transport is playing. It does not look at whether the state is Playing.
- With no reader source, the render callback clears the region and returns.
  It leaves the last peak level as it was rather than setting it to 0.
- The level history is written by the timer, one slot per tick, from the last
  peak. The render callback does not write it. Levels are clamped to [0, 1] only
  when drawn.

## Model

| member | source | states |
|---|---|---|
| AudioTypes.NewReader | Source/UnixMatrix.h:418 | a freshly built reader source is bound to the chosen file and does not loop |
| TransportController.ChangeState | Source/UnixMatrix.h:359-396 | requesting the current state changes nothing; otherwise the state becomes the requested one, the reader is untouched, and exactly that case's flag and transport effects apply (Stopped: Play on, Pause and Stop off, position 0; Starting: Play and Pause off, transport started; Playing: Pause and Stop on; Paused: Pause off, Play and Stop on; Stopping: transport stopped), every other flag keeping its value |
| TransportController.TransportChanged | Source/UnixMatrix.h:290-302 | while Paused the notification changes nothing; otherwise the state becomes Playing if the transport plays and Stopped if not, with changeState's effects on entering it: entering Stopped rewinds to 0 and sets Play on, Pause and Stop off; entering Playing sets Pause and Stop on |
| TransportController.UpdateLoopState | Source/UnixMatrix.h:335-339 | without a reader nothing changes; with one, its looping flag becomes the toggle and nothing else changes |
| TransportController.PlayClicked | Source/UnixMatrix.h:429-434 | Play ends in Starting with Pause enabled, the reader's looping flag set to the toggle, Stop and the position untouched; from any other state Play is disabled and the transport started |
| TransportController.PauseClicked | Source/UnixMatrix.h:443-447 | Pause stops the transport keeping its position and ends in Paused; from another state Play and Stop are enabled and Pause disabled, from Paused only the transport's playing flag is touched |
| TransportController.StopClicked | Source/UnixMatrix.h:436-441 | Stop ends in Stopped with the transport stopped at position 0; from another state Play is enabled and Pause and Stop disabled, from Stopped the flags stay |
| TransportController.OpenCompleted | Source/UnixMatrix.h:408-426 | no file or no reader changes nothing; a reader replaces the reader source (not looping), enables Play, disables Pause and Stop, and leaves the state and transport as they were |
| TransportController.PositionLabel | Source/UnixMatrix.h:314-332 | while the transport plays the label is a readout whose fields are the minutes mod 60, seconds mod 60 and milliseconds mod 1000 of the position, so its value is the position modulo an hour; otherwise it is "Paused" exactly when the state is Paused, else "Stopped" |
| TransportController.StepKeepsCoherent | Source/UnixMatrix.h:429-447 | every handler and notification keeps the invariant: never Stopping; Stopped has Pause and Stop off and the transport not playing at position 0; Paused has Play on, Pause off and the transport not playing |
| TransportController.RunKeepsCoherent | Source/UnixMatrix.h:290-302 | the invariant holds after any sequence of events |
| TransportController.StoppingNeverEntered | Source/UnixMatrix.h:131-133 | from the constructor's state no sequence of clicks, dialog outcomes, notifications or playback ends reaches Stopping |
| TransportController.PausedIgnoresNotifications | Source/UnixMatrix.h:294-295 | while Paused any number of notifications leave every field unchanged |
| TransportController.StopAndPauseIdempotent | Source/UnixMatrix.h:436-447 | pressing Stop (or Pause) twice has the same effect as pressing it once |
| TransportController.ChangeStateIdempotent | Source/UnixMatrix.h:361 | requesting the same state twice is the same as requesting it once |
| TutorialController.ChangeState | Source/PlayingSoundFilesTutorial_01.h:88-116 | no-op on the current state; otherwise Stopped: Play on, Stop off, position 0; Starting: Play off, transport started; Playing: Stop on; Stopping: transport stopped, position kept; nothing else changes |
| TutorialController.TransportChanged | Source/PlayingSoundFilesTutorial_01.h:68-77 | the state becomes Playing if the transport plays and Stopped if not, with no Paused exception, and with changeState's effects: entering Stopped rewinds to 0, sets Play on and Stop off; entering Playing sets Stop on |
| TutorialController.PlayClicked | Source/PlayingSoundFilesTutorial_01.h:145-148 | Play always ends in Starting; from another state Play is disabled and the transport started |
| TutorialController.StopClicked | Source/PlayingSoundFilesTutorial_01.h:150-153 | Stop ends in Stopping, with both buttons and the position unchanged and, from another state, the transport stopped |
| TutorialController.OpenCompleted | Source/PlayingSoundFilesTutorial_01.h:126-142 | a reader replaces the reader source and enables Play, touching neither Stop nor the state; no file or no reader changes nothing |
| TutorialController.StepKeepsCoherent | Source/PlayingSoundFilesTutorial_01.h:88-116 | every event keeps the invariant: Stopped has Stop off and the transport not playing at position 0, Stopping has the transport not playing |
| TutorialController.RunKeepsCoherent | Source/PlayingSoundFilesTutorial_01.h:68-77 | the invariant holds after any sequence of events |
| TutorialController.StoppedOnlyByNotification | Source/PlayingSoundFilesTutorial_01.h:68-77 | Stopped is entered from another state only by a notification that finds the transport not playing |
| TutorialController.StopThenNotificationStops | Source/PlayingSoundFilesTutorial_01.h:150-153 | after any history, Stop followed by the notification ends in Stopped at position 0 with Play on, Stop off and the same reader |
| TutorialController.StoppingIsReachable | Source/PlayingSoundFilesTutorial_01.h:111-113 | open, Play, Stop reaches Stopping |
| PositionFormat.ZeroPad | Source/UnixMatrix.h:322 | "%0Nd" of a value with at most N digits is N decimal digits |
| PositionFormat.ZeroPadValue | Source/UnixMatrix.h:322 | reading the padded digits back gives the value |
| PositionFormat.PositionString | Source/UnixMatrix.h:316-322 | the readout is two digits, ':', two digits, ':', three digits |
| PositionFormat.PositionFields | Source/UnixMatrix.h:318-320 | the fields show minutes mod 60, seconds mod 60 and milliseconds mod 1000 of the position |
| PositionFormat.FieldsRecompose | Source/UnixMatrix.h:318-320 | the three fields together recover the position modulo an hour |
| PositionFormat.PositionStringRoundTrip | Source/UnixMatrix.h:316-324 | the readout's value is the position modulo an hour |
| PositionFormat.PositionStringExample | Source/UnixMatrix.h:322 | 125678 ms reads "02:05:678" |
| MeterHistory.Empty | Source/UnixMatrix.h:342-344 | the initial history is well formed, holds 64 zero levels and writes next at slot 0 |
| MeterHistory.Push | Source/UnixMatrix.h:306-310 | a tick stores the level in the write slot, leaves the other 63 slots alone and advances the index modulo 64, so it stays in [0, 64) |
| MeterHistory.Clamp01 | Source/UnixMatrix.h:262 | a bar's level is the stored level limited to [0, 1] |
| MeterHistory.Bars | Source/UnixMatrix.h:255-271 | paint draws 64 bars, each in [0, 1] |
| MeterHistory.BarsScroll | Source/UnixMatrix.h:259-262 | after a tick the bars scroll left by one and the new level appears as the rightmost bar |
| MeterHistory.PushAll | Source/UnixMatrix.h:304-310 | any number of ticks keep the history well formed |
| MeterHistory.ClampAll | Source/UnixMatrix.h:262 | each clamped level is its level limited to [0, 1] |
| MeterHistory.BarsShowLatest | Source/UnixMatrix.h:259-262 | after any run of ticks the bars are the earlier bars' tail followed by the new levels, so the meter shows the last 64 levels, oldest first |
| AudioBlock.Abs | Source/UnixMatrix.h:226 | a sample's magnitude is non-negative and equals it up to sign |
| AudioBlock.ClearRegion | Source/UnixMatrix.h:197-201 | every sample of the active region becomes 0 and nothing else changes |
| AudioBlock.ApplyGain | Source/UnixMatrix.h:205-210 | every sample of the active region is multiplied by the gain and nothing else changes |
| AudioBlock.ScanPeak | Source/UnixMatrix.h:213-233 | the result is the largest magnitude over every channel and sample of the active region: none exceeds it and, unless it is 0, one reaches it |
| AudioBlock.PeakUnique | Source/UnixMatrix.h:219-232 | the block's peak is determined by the block |
| AudioBlock.SilencePeak | Source/UnixMatrix.h:207-232 | a silent region (for example after a gain of 0) has peak 0 |
| AudioBlock.FullScalePeak | Source/UnixMatrix.h:219-232 | a non-empty region of samples +1 and -1 has peak exactly 1 |
| UnixMatrix.MainContentComponent.constructor | Source/UnixMatrix.h:131-182 | starts Stopped with every button disabled, no reader, an idle transport, label "Stopped", an empty history, level 0 and gain 1 |
| UnixMatrix.MainContentComponent.VolumeChanged | Source/UnixMatrix.h:164-167 | the slider's value becomes the gain |
| UnixMatrix.MainContentComponent.ChangeState | Source/UnixMatrix.h:359-396 | updates the fields as TransportController.ChangeState and touches nothing else |
| UnixMatrix.MainContentComponent.ChangeListenerCallback | Source/UnixMatrix.h:290-302 | updates the fields as TransportController.TransportChanged |
| UnixMatrix.MainContentComponent.UpdateLoopState | Source/UnixMatrix.h:335-339 | updates the reader as TransportController.UpdateLoopState |
| UnixMatrix.MainContentComponent.OpenCompleted | Source/UnixMatrix.h:410-424 | updates the fields as TransportController.OpenCompleted |
| UnixMatrix.MainContentComponent.PlayButtonClicked | Source/UnixMatrix.h:429-434 | updates the fields as TransportController.PlayClicked |
| UnixMatrix.MainContentComponent.StopButtonClicked | Source/UnixMatrix.h:436-441 | updates the fields as TransportController.StopClicked |
| UnixMatrix.MainContentComponent.PauseButtonClicked | Source/UnixMatrix.h:443-447 | updates the fields as TransportController.PauseClicked |
| UnixMatrix.MainContentComponent.LoopButtonChanged | Source/UnixMatrix.h:449-452 | pushes the toggle onto the reader, if any |
| UnixMatrix.MainContentComponent.TimerCallback | Source/UnixMatrix.h:304-333 | the history becomes MeterHistory.Push of the last level and the label becomes TransportController.PositionLabel of the fields |
| UnixMatrix.MainContentComponent.MeterBars | Source/UnixMatrix.h:255-271 | the levels paint draws are MeterHistory.Bars of the history |
| UnixMatrix.MainContentComponent.GetNextAudioBlock | Source/UnixMatrix.h:195-238 | without a reader the region is cleared and the level kept; with one the region is scaled by the gain when it is not 1 and left untouched at gain 1, and the level becomes the region's peak, 0 for an empty region or no buffer |
| Old99AppleFeel.MainContentComponent.constructor | Source/Old99AppleFeel.h:185-223 | starts Stopped with every button disabled, no reader, an idle transport and label "Stopped" |
| Old99AppleFeel.MainContentComponent.ChangeState | Source/Old99AppleFeel.h:334-371 | updates the fields as TransportController.ChangeState and touches nothing else |
| Old99AppleFeel.MainContentComponent.ChangeListenerCallback | Source/Old99AppleFeel.h:279-291 | updates the fields as TransportController.TransportChanged |
| Old99AppleFeel.MainContentComponent.UpdateLoopState | Source/Old99AppleFeel.h:316-320 | updates the reader as TransportController.UpdateLoopState |
| Old99AppleFeel.MainContentComponent.OpenCompleted | Source/Old99AppleFeel.h:387-399 | updates the fields as TransportController.OpenCompleted |
| Old99AppleFeel.MainContentComponent.PlayButtonClicked | Source/Old99AppleFeel.h:404-409 | updates the fields as TransportController.PlayClicked |
| Old99AppleFeel.MainContentComponent.StopButtonClicked | Source/Old99AppleFeel.h:411-416 | updates the fields as TransportController.StopClicked |
| Old99AppleFeel.MainContentComponent.PauseButtonClicked | Source/Old99AppleFeel.h:418-422 | updates the fields as TransportController.PauseClicked |
| Old99AppleFeel.MainContentComponent.LoopButtonChanged | Source/Old99AppleFeel.h:424-427 | pushes the toggle onto the reader, if any |
| Old99AppleFeel.MainContentComponent.TimerCallback | Source/Old99AppleFeel.h:293-314 | the label becomes TransportController.PositionLabel of the fields |
| Old99AppleFeel.MainContentComponent.GetNextAudioBlock | Source/Old99AppleFeel.h:236-245 | without a reader the active region is cleared; nothing else changes |
| AppleFeel.MainContentComponent.constructor | Source/AppleFeel.h:154-195 | starts Stopped with every button disabled, no reader, an idle transport and label "Stopped" |
| AppleFeel.MainContentComponent.ChangeState | Source/AppleFeel.h:297-334 | updates the fields as TransportController.ChangeState and touches nothing else |
| AppleFeel.MainContentComponent.ChangeListenerCallback | Source/AppleFeel.h:242-254 | updates the fields as TransportController.TransportChanged |
| AppleFeel.MainContentComponent.UpdateLoopState | Source/AppleFeel.h:279-283 | updates the reader as TransportController.UpdateLoopState |
| AppleFeel.MainContentComponent.OpenCompleted | Source/AppleFeel.h:350-362 | updates the fields as TransportController.OpenCompleted |
| AppleFeel.MainContentComponent.PlayButtonClicked | Source/AppleFeel.h:367-372 | updates the fields as TransportController.PlayClicked |
| AppleFeel.MainContentComponent.StopButtonClicked | Source/AppleFeel.h:374-379 | updates the fields as TransportController.StopClicked |
| AppleFeel.MainContentComponent.PauseButtonClicked | Source/AppleFeel.h:381-385 | updates the fields as TransportController.PauseClicked |
| AppleFeel.MainContentComponent.LoopButtonChanged | Source/AppleFeel.h:387-390 | pushes the toggle onto the reader, if any |
| AppleFeel.MainContentComponent.TimerCallback | Source/AppleFeel.h:256-277 | the label becomes TransportController.PositionLabel of the fields |
| AppleFeel.MainContentComponent.GetNextAudioBlock | Source/AppleFeel.h:208-217 | without a reader the active region is cleared; nothing else changes |
| PlayingSoundFilesTutorial01.MainContentComponent.constructor | Source/PlayingSoundFilesTutorial_01.h:8-33 | starts Stopped with both buttons disabled, no reader and an idle transport |
| PlayingSoundFilesTutorial01.MainContentComponent.ChangeState | Source/PlayingSoundFilesTutorial_01.h:88-116 | updates the fields as TutorialController.ChangeState |
| PlayingSoundFilesTutorial01.MainContentComponent.ChangeListenerCallback | Source/PlayingSoundFilesTutorial_01.h:68-77 | updates the fields as TutorialController.TransportChanged |
| PlayingSoundFilesTutorial01.MainContentComponent.OpenCompleted | Source/PlayingSoundFilesTutorial_01.h:130-139 | updates the fields as TutorialController.OpenCompleted |
| PlayingSoundFilesTutorial01.MainContentComponent.PlayButtonClicked | Source/PlayingSoundFilesTutorial_01.h:145-148 | updates the fields as TutorialController.PlayClicked |
| PlayingSoundFilesTutorial01.MainContentComponent.StopButtonClicked | Source/PlayingSoundFilesTutorial_01.h:150-153 | updates the fields as TutorialController.StopClicked |
| PlayingSoundFilesTutorial01.MainContentComponent.GetNextAudioBlock | Source/PlayingSoundFilesTutorial_01.h:45-54 | without a reader the active region is cleared and the transport is not consulted; nothing else changes |

## Left out

- Look-and-feel classes, `resized` and the pixel geometry of `paint`: colours, fonts and drawing calls into the framework. The meter's slot order and clamping are kept in `MeterBars`.
- The file dialog, the format manager and decoding are framework code. The dialog's result is the parameter `OpenOutcome`: no file chosen, no reader for the file, or a reader created. The `chooser` object and the wildcard are not modelled.
- The framework's transport and reader sources are unseen library code. The model keeps only `playing`, `position` (in milliseconds) and `looping`. `start()` sets `playing`, `stop()` clears it and `setPosition(0.0)` rewinds.
- What `setSource` does to a playing transport is library code and is not modelled: `OpenCompleted` leaves the transport as it was.
- The library's `start()` does nothing when no source is set. The model does not capture that: it starts the transport anyway.
- Playback progress is not modelled: the position does not advance while playing. The library stopping at the end of a file is the event `PlaybackEnded`. The change notification it sends is a separate `TransportNotified` event.
- The library's `getNextAudioBlock` renders into the buffer. In the model, the buffer's contents on entry stand for what it rendered. The model does not say what those contents are.
- `ChangeListenerCallback`: the `source == &transportSource` test is not modelled. The transport is the only broadcaster the component listens to.
- Threads and atomics: `lastLevel` and `targetGain` are `juce::Atomic<float>`. Here they are plain fields, and each callback is one sequential step.
- Floating point: samples, gain and levels are `real`. The rounding of `applyGain` and the float-to-int casts of the position are not modelled.
- The readout's 32-bit `int` cast of the millisecond count is not modelled. It would wrap only after about 24 days of position.
- `VolumeChanged`: the slider's range [0, 1] and its 0.01 step are not enforced.
- Button enablement does not gate the handlers in the model. The framework delivers no clicks to a disabled button. The event-sequence properties are proved for every sequence, including the ones a user could not produce.
- The loop toggle's own state is the parameter `loopToggle` of `PlayButtonClicked` and `LoopButtonChanged`.
- `prepareToPlay`, `releaseResources`, the destructors, `repaint()`, `setAudioChannels`, the timer intervals and the constructors' widget setup beyond the initial values are lifecycle plumbing.
- A reader the framework builds starts out not looping. `AudioTypes.NewReader` assumes this. The framework class that sets it is not part of this model.
