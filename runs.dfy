/**
  The page as an event-driven machine: every click and every asynchronous
  completion the handlers of `main.js` react to is an `Event`, and a run is
  any sequence of them. Completions may arrive in any order here, which
  covers every order the browser can deliver them in.
 */
module Runs {
  import opened Transitions
  import opened Wrappers
  import Rounds

  datatype Event =
    | PlayPauseClicked
    | DistortClicked
    | UndoDistortClicked
    | DeleteClicked(index: int)
    | RecordClicked
    | ResetClicked
    | PlaybackReady(decoded: bool, micGranted: bool)
    | SourceEnded
    | RecorderStream(granted: bool)
    | DataAvailable(size: nat, url: string)
    | RecorderStopped
    | RoundSettled(loads: seq<Rounds.ClipLoad>)

  /** The handler that reacts to one event. */
  function Step(s: State, e: Event): (r: Transition)
    ensures r.next.page == s.page
    ensures Consistent(s) ==> Consistent(r.next)
    ensures s.continuous && !r.next.continuous ==> r.next == Initial(s.page) && ReloadPage in r.effects
  {
    match e
    case PlayPauseClicked => TogglePlayPause(s)
    case DistortClicked => DistortAudio(s)
    case UndoDistortClicked => UndoDistortAudio(s)
    case DeleteClicked(index) => DeleteAudioAtIndex(s, index)
    case RecordClicked => ToggleRecording(s)
    case ResetClicked => ResetAudioArray(s)
    case PlaybackReady(decoded, micGranted) => Transitions.PlaybackReady(s, decoded, micGranted)
    case SourceEnded => ContinueOrStop(s)
    case RecorderStream(granted) => Transitions.RecorderStream(s, granted)
    case DataAvailable(size, url) => Transitions.DataAvailable(s, size, url)
    case RecorderStopped => Transitions.RecorderStopped(s)
    case RoundSettled(loads) => Transitions.RoundSettled(s, loads)
  }

  /** The state after a run of events and every command issued along it. */
  function Run(s: State, events: seq<Event>): (r: Transition)
    ensures r.next.page == s.page
    decreases |events|
  {
    if events == [] then Transition(s, [])
    else Chain(Step(s, events[0]), Run(Step(s, events[0]).next, events[1..]))
  }

  /** Every handler keeps the state consistent, so every run does. */
  lemma {:induction false} RunStaysConsistent(s: State, events: seq<Event>)
    requires Consistent(s)
    ensures Consistent(Run(s, events).next)
    decreases |events|
  {
    if events != [] {
      RunStaysConsistent(Step(s, events[0]).next, events[1..]);
    }
  }

  /** Every state the page can reach from its loaded state is consistent:
      `isPlayingArray` is always empty, an effect never exists without a
      source, playback never runs outside continuous mode, and (for markup that
      loads with distortion enabled and undo disabled) the two effect buttons
      always show whether the effect exists. */
  lemma ReachableStatesConsistent(page: Buttons, events: seq<Event>)
    ensures Consistent(Run(Initial(page), events).next)
  {
    RunStaysConsistent(Initial(page), events);
  }

  /** Continuous mode, once on, stays on until the page reloads: nothing but a
      reset or the deletion of the last clip turns it off. */
  lemma {:induction false} ContinuousUntilReload(s: State, events: seq<Event>)
    requires s.continuous
    ensures Run(s, events).next.continuous || ReloadPage in Run(s, events).effects
    decreases |events|
  {
    if events != [] {
      var t := Step(s, events[0]);
      if t.next.continuous {
        ContinuousUntilReload(t.next, events[1..]);
      }
    }
  }

  /** Stopping a recording that captured one clip into an empty list, as the
      recorder reports it (data, then stop), leaves one clip and starts
      playing that clip. */
  lemma StopRecordingPlaysNewClip(s: State, size: nat, url: string)
    requires s.recording && s.clips == [] && !s.playing && !s.hasSource && s.hasRecorder
    requires size > 0
    ensures var r := Run(s, [RecordClicked, DataAvailable(size, url), RecorderStopped]);
            && r.next.clips == [url]
            && r.next.playing && r.next.continuous && !r.next.recording
            && r.effects == [StopRecorder, PlayRound, PlayAudio(Some(url))]
  {
    var t1 := Step(s, RecordClicked);
    var t2 := Step(t1.next, DataAvailable(size, url));
    var t3 := Step(t2.next, RecorderStopped);
    assert t2.next.clips == [url] && !t2.next.playing && !t2.next.hasSource;
    assert Run(t2.next, [RecorderStopped]) == Chain(t3, Transition(t3.next, []));
    assert Run(t1.next, [DataAvailable(size, url), RecorderStopped])
        == Chain(t2, Run(t2.next, [RecorderStopped]));
  }

  /** Pressing play/pause twice on a non-empty idle list plays and then
      pauses, and continuous mode stays on after the pause. */
  lemma PlayPauseTwice(s: State)
    requires Consistent(s) && s.clips != [] && !s.playing
    ensures var r := Run(s, [PlayPauseClicked, PlayPauseClicked]);
            !r.next.playing && r.next.continuous && r.next.clips == s.clips
  {
  }

  /** When recording is toggled off before the microphone answers, the late
      answer still installs and starts a recorder and an input node while
      `isRecording` is off. */
  lemma LateMicrophoneStartsRecorder(s: State)
    requires !s.recording
    ensures var r := Run(s, [RecordClicked, RecordClicked, RecorderStream(true)]);
            && !r.next.recording && r.next.hasRecorder && r.next.hasInput
            && r.effects[|r.effects| - 1] == StartRecorder
  {
  }

  /** A round in which one clip fails to load never completes, so it never
      plays another round: continuous playback stops silently. */
  lemma FailedRoundEndsLoop(s: State, loads: seq<Rounds.ClipLoad>, i: nat)
    requires i < |loads| && loads[i] == Rounds.Failed
    ensures Step(s, RoundSettled(loads)) == Transition(s, [])
  {
  }
}
