# SonicBrushing session model

A Dafny model of the state machine behind the SonicBrushing recording page
(`main.js`). The page records microphone clips into a list. It plays them back,
first the opening clip and then in repeated rounds of simultaneous playback,
and it can splice a distortion effect into the current source. The model
covers the state that the page's handlers change:

- the clip list `audioList` and the per-clip flags `isPlayingArray`;
- the mode flags `isRecording`, `isPlaying` and `isContinuousPlayback`;
- whether `audioSource`, `distortionNode`, `inputAudioNode` and
  `audioRecorder` hold a node;
- the disabled flags of the distort, undo and reset buttons.

Layout:

- `wrappers.dfy`, module `Wrappers`: the `Option` type the other modules share.
- `clip_list.dfy`, module `ClipList`: `splice(index, 1)` as both lists use it.
- `rounds.dfy`, module `Rounds`: when the promise of one `playSimultaneously`
  round settles and how many sources it starts, given whether each clip loads.
- `transitions.dfy`, module `Transitions`: the session state as a value. Each
  handler is a function from the state before to the state after and the
  commands it issues to the platform (`Effect`: suspend or resume the audio
  context, play a clip, start a round, start or stop the recorder, reload).
  `Consistent` is the invariant that every handler keeps.
- `runs.dfy`, module `Runs`: clicks and asynchronous completions as events, and
  runs as sequences of events in any order. It proves the invariants of every
  reachable state and a few scenarios.
- `session.dfy`, module `App`: class `Session`. Its fields are the page's
  globals, and each handler is a method that updates them in place. Each method
  is proved to produce exactly the state and the commands of the matching
  `Transitions` function. Commands go to a ghost `log`. `Valid()` (the state
  is `Consistent`) holds after the constructor and every handler.

Each asynchronous completion is a method or event of its own, with the outcome
of the I/O behind it as a parameter:
- `playAudio` after the decode and the microphone request;
- the source's `onended`;
- the recorder's stream, `ondataavailable` and `onstop`;
- the settling of a `playContinuously` round.

`location.reload()` returns the session to the state the page loads in. The
button markup the page loads with is a parameter (`page`) because the HTML is
not part of this model.

Where the code departs from what the page evidently intends, the model
follows the code:

- Pausing does not clear continuous mode. `isContinuousPlayback` is set by
  `startPlaying` and cleared only by `resetAudioArray`, which then reloads
  (`ContinuousUntilReload`, `PlayingNeverStopsByItself`).
- A refused microphone leaves `isRecording` on. The failure is only logged
  (`RecorderStream`).
- A clip that fails to load is not skipped in a simultaneous round.
  `Promise.all` rejects inside an asynchronous callback, so the round's promise
  never settles and the continuous loop stops silently (`PlaySimultaneously`,
  `FailedRoundEndsLoop`).
- The source filter of `playSimultaneously` always keeps nothing, so its
  chained completion and its duration-based stop never run. Every per-clip
  promise resolves with `undefined`, and a round settles once every started
  source has ended (`NoValidSources`, `PlaySimultaneously`).
- An out-of-range deletion signals nothing. It is a silent no-op
  (`DeleteAudioAtIndex`).
- `isPlayingArray` is created empty and never grows. Appending a clip does not
  extend it, so it is empty in every reachable state
  (`ReachableStatesConsistent`).
- If recording is toggled off before the microphone answers, the late answer
  still installs and starts a recorder and an input node, with `isRecording`
  off (`LateMicrophoneStartsRecorder`).

## Model

| member | source | states |
|---|---|---|
| `ClipList.Splice` | main.js:401-402 | a valid index removes exactly that element and shrinks the list by one, keeping the elements before and after in order; an index past the end leaves the list as it was |
| `ClipList.SpliceReinsert` | main.js:401 | putting the removed clip back at its index restores the original list, so the other clips keep their relative order |
| `ClipList.SpliceMultiset` | main.js:401 | exactly one occurrence of the removed clip is gone and nothing else |
| `ClipList.SpliceUndoesPush` | main.js:398-402 | splicing out the last index undoes an appended clip |
| `Rounds.AllSettled` | main.js:275 | `Promise.all` fulfils exactly when every clip decodes, and then holds one `undefined` per clip |
| `Rounds.ValidSources` | main.js:277 | the filter keeps only source nodes with a buffer, keeps every one of them as often as it occurs, and adds nothing |
| `Rounds.NoValidSources` | main.js:277-279 | the filter keeps nothing of the values `Promise.all` produces here |
| `Rounds.Started` | main.js:336-353 | each decoded clip's source is started: the count is the number of decoded clips (all of them exactly when all decode, none when all fail) |
| `Rounds.PlaySimultaneously` | main.js:269-309 | a round settles (once every source has ended) exactly when every clip loads; one failed clip leaves it pending forever; the chained completion is never reached |
| `Rounds.EmptyRoundSettles` | main.js:304-306 | a round over an empty list settles at once without starting a source |
| `Rounds.FailedClipStallsRound` | main.js:270-275 | one failed clip keeps the round pending while every clip that did not fail is still started |
| `Transitions.Initial` | main.js:3-21 | the loaded page has no clips, plays and records nothing, is not in continuous mode, and is consistent |
| `Transitions.StartPlaying` | main.js:34-51 | playing and continuous mode go on and nothing else changes; without a source it plays `audioList[0]` (undefined for an empty list), otherwise it suspends and resumes the context |
| `Transitions.PausePlayingAll` | main.js:53-60 | only `isPlaying` goes off (continuous mode stays as it was); the context is suspended exactly when a source exists |
| `Transitions.TogglePlayPause` | main.js:23-32 | an empty list changes nothing; when idle it is `startPlaying`; when playing, `isPlaying` goes off, continuous mode stays, the context is suspended if a source exists, an existing effect is removed with its buttons swapped back, and nothing else changes |
| `Transitions.PlaybackReady` | main.js:62-98 | a decoded clip becomes the source; the input node is created and the source started only when the microphone answered too; a failed decode changes nothing |
| `Transitions.ContinueOrStop` | main.js:83-90 | when a source ends, continuous mode plays another round without changing the state; otherwise only `isPlaying` goes off |
| `Transitions.RoundSettled` | main.js:311-323 | after a round whose clips all loaded, it continues or stops as `ContinueOrStop`; after a round with a failed clip nothing happens |
| `Transitions.DistortAudio` | main.js:228-240 | with a source the effect is present afterwards; it is created, and the distort and undo buttons swap, only when a source exists and no effect does; otherwise nothing changes |
| `Transitions.UndoDistortAudio` | main.js:242-253 | with a source the effect is absent afterwards; it acts, and the buttons swap back, only when a source and an effect both exist |
| `Transitions.StartRecording` | main.js:133-136 | recording goes on and the microphone is requested; nothing else changes |
| `Transitions.RecorderStream` | main.js:136-189 | a granted stream installs a recorder and an input node, starts the recorder and enables reset, whether or not recording is still on, and changes nothing else; a refusal changes nothing |
| `Transitions.StopRecording` | main.js:193-210 | recording goes off, the input node is dropped, an existing recorder is stopped and a continuous round is started |
| `Transitions.ToggleRecording` | main.js:124-131 | flips `isRecording`; stopping drops the input node, stops an existing recorder, starts a round, removes an existing effect with its buttons swapped back, and changes nothing else |
| `Transitions.DataAvailable` | main.js:157-164 | a blob of positive size appends its URL at the end of the list, and an empty blob changes nothing; the per-clip flags are never extended |
| `Transitions.RecorderStopped` | main.js:166-179 | afterwards playback is on and the input node is gone; playback is started (continuous mode on, `startPlaying`'s commands) only if it was not already on; nothing else changes |
| `Transitions.DeleteAudioAtIndex` | main.js:398-417 | an index outside the list changes nothing; otherwise both lists are spliced at that index, the clip list shrinking by one with that clip gone and the rest in order; emptying it pauses playback if on, then reloads to the initial state |
| `Transitions.ResetAudioArray` | main.js:470-500 | the session returns to the initial state after pausing playback if on, then reloads |
| `Transitions.DistortIdempotent` | main.js:228-240 | a second `distortAudio` changes nothing |
| `Transitions.UndoInvertsDistort` | main.js:228-253 | in a consistent state whose markup loads with distort enabled and undo disabled, undoing an acting `distortAudio` restores the state before it |
| `Transitions.EffectButtonsOpposite` | main.js:237-251 | in a consistent state whose markup loads with distort enabled and undo disabled, after either distortion handler the distort and undo buttons' disabled flags are each other's negation, and undo is enabled exactly when the effect exists |
| `Transitions.UndoLeavesNoEffect` | main.js:242-253 | in a consistent state `undoDistortAudio` always leaves the effect absent |
| `Transitions.DeleteUndoesAppend` | main.js:398-402 | in a consistent state with at least one clip already listed, deleting the clip the recorder just appended restores the state before and issues nothing (deleting the only clip reloads instead) |
| `Transitions.DeleteLastIsReset` | main.js:407-415 | deleting the only clip has the same outcome and commands as the reset button |
| `Transitions.PlayingNeverStopsByItself` | main.js:83-90 | while playing, the end of a source or round always plays another round, and pausing leaves continuous mode on |
| `Runs.Step` | main.js:23-500 | every handler keeps the state consistent and the page markup fixed; continuous mode goes off only by a reload to the initial state |
| `Runs.RunStaysConsistent` | main.js:23-500 | any sequence of clicks and completions, in any order, keeps a consistent state consistent |
| `Runs.ReachableStatesConsistent` | main.js:1-21 | every state reachable from the loaded page has empty per-clip flags, no effect without a source, and no playback outside continuous mode; when the markup loads with distort enabled and undo disabled, the effect buttons also match the effect |
| `Runs.ContinuousUntilReload` | main.js:470-499 | once continuous mode is on, it stays on through any run unless the page reloads |
| `Runs.StopRecordingPlaysNewClip` | main.js:124-210 | stopping a recording that captured one clip into an empty list leaves that one clip and plays it |
| `Runs.PlayPauseTwice` | main.js:23-60 | play/pause twice on a non-empty idle list ends paused with the list unchanged and continuous mode still on |
| `Runs.LateMicrophoneStartsRecorder` | main.js:133-189 | starting then stopping a recording before the microphone answers still starts a recorder and an input node while `isRecording` is off |
| `Runs.FailedRoundEndsLoop` | main.js:311-323 | a round with a failed clip never reaches the continuation, so no further round is played |
| `App.Session.constructor` | main.js:1-21 | the object starts in the initial state, consistent, with no commands issued |
| `App.Session.Reload` | main.js:412-415 | the object returns to the initial state and records the reload |
| `App.Session.TogglePlayPause` | main.js:23-32 | keeps `Valid()`; in-place update equal to `Transitions.TogglePlayPause`, with its commands appended to the log |
| `App.Session.StartPlaying` | main.js:34-51 | keeps `Valid()`; in-place update equal to `Transitions.StartPlaying` |
| `App.Session.PausePlayingAll` | main.js:53-60 | keeps `Valid()`; in-place update equal to `Transitions.PausePlayingAll` |
| `App.Session.OnPlaybackReady` | main.js:62-98 | keeps `Valid()`; in-place update equal to `Transitions.PlaybackReady` |
| `App.Session.ContinueOrStop` | main.js:83-90 | keeps `Valid()`; in-place update equal to `Transitions.ContinueOrStop` |
| `App.Session.OnRoundSettled` | main.js:311-323 | keeps `Valid()`; in-place update equal to `Transitions.RoundSettled` |
| `App.Session.DistortAudio` | main.js:228-240 | keeps `Valid()`; in-place update equal to `Transitions.DistortAudio`, issuing no command |
| `App.Session.UndoDistortAudio` | main.js:242-253 | keeps `Valid()`; in-place update equal to `Transitions.UndoDistortAudio`, issuing no command |
| `App.Session.ToggleRecording` | main.js:124-131 | keeps `Valid()`; in-place update equal to `Transitions.ToggleRecording` |
| `App.Session.StartRecording` | main.js:133-136 | keeps `Valid()`; in-place update equal to `Transitions.StartRecording` |
| `App.Session.OnRecorderStream` | main.js:136-189 | keeps `Valid()`; in-place update equal to `Transitions.RecorderStream` |
| `App.Session.StopRecording` | main.js:193-210 | keeps `Valid()`; in-place update equal to `Transitions.StopRecording` |
| `App.Session.OnDataAvailable` | main.js:157-164 | keeps `Valid()`; in-place update equal to `Transitions.DataAvailable`, issuing no command |
| `App.Session.OnRecorderStop` | main.js:166-179 | keeps `Valid()`; in-place update equal to `Transitions.RecorderStopped` |
| `App.Session.DeleteAudioAtIndex` | main.js:398-417 | keeps `Valid()`; in-place splice of both lists, equal to `Transitions.DeleteAudioAtIndex` |
| `App.Session.ResetAudioArray` | main.js:470-500 | keeps `Valid()`; in-place update equal to `Transitions.ResetAudioArray` |

## Left out

- `startPlaying`'s deferred resume: with a source present, `resume()` runs only after `suspend()` resolves and a 100 ms timer fires. The model issues suspend and resume together. So it does not capture the race in which a pause clicked in that window is overridden by the pending resume, leaving the context running while `isPlaying` is off.
- Web Audio graph wiring (`connect`, `disconnect`, `applyDistortion`, `createBufferSource`, `createGain`, the suspend/resume promises): a browser API. Only whether the source, the effect and the input node exist is modelled.
- Clip loading and capture (`fetch`, `decodeAudioData`, `getUserMedia`, `MediaRecorder`, `URL.createObjectURL`): I/O and device access. Their outcome (decoded or not, microphone granted or not, blob size, object URL) is a parameter of the completion methods.
- `makeDistortionCurve`: floating-point numerics on a `Float32Array`. The model tracks only whether the effect exists.
- The timing of `playSimultaneously`: the duration-based stop, the `setTimeout` and the `Math.max` over promises (which yields NaN) are left out. They sit in the branch that the model proves is never taken.
- `togglePlayPauseAtIndex`: no button calls it, and it indexes the single source node as if it were an array.
- `playAudioInRealTime`: nothing calls it.
- DOM rendering: `updateAudioList`, button labels, icons and the recording CSS class.
- The startup `setTimeout` block and `setupRealTimeMonitoring`, including the `realTimeStream` that `resetAudioArray` stops. While running, this code can also set `inputAudioNode`, which the model does not track.
- `location.reload()`: modelled as a return to the initial state, not as navigation. The log of commands survives it.
- Runs: completions may arrive in any order and at any time, even when the browser could not deliver them then (a source's `onended` before any source exists). The proved invariants therefore hold for every real order as well.
