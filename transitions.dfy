/**
  The session state of `main.js` as a value, and every handler of the page as
  a function from the state before to the state after together with the
  platform commands it issues (audio context, recorder, page reload).
  `App.Session` runs the same handlers in place on an object's fields.
 */
module Transitions {
  import ClipList
  import Rounds
  import opened Wrappers

  /** Disabled flags of the buttons the handlers switch. */
  datatype Buttons = Buttons(distortDisabled: bool, undoDisabled: bool, resetDisabled: bool)

  /** The module-level variables of the page.
      `page` is the button markup the page loads with; it never changes and a
      reload restores it. The `has` flags say whether `audioSource`,
      `distortionNode`, `inputAudioNode` and `audioRecorder` hold a node. */
  datatype State = State(
    page: Buttons,
    clips: seq<string>,
    flags: seq<bool>,
    recording: bool,
    playing: bool,
    continuous: bool,
    hasSource: bool,
    hasDistortion: bool,
    hasInput: bool,
    hasRecorder: bool,
    buttons: Buttons)

  /** Commands a handler issues to the platform, in order. */
  datatype Effect =
    | PlayAudio(url: Option<string>)  // playAudio: resume, fetch and decode the clip
    | SuspendContext                  // audioContext.suspend()
    | ResumeContext                   // audioContext.resume() after the short delay
    | StartSource                     // audioSource.start(0)
    | PlayRound                       // playContinuously: one playSimultaneously round
    | RequestMicrophone               // getUserMedia for a recording
    | StartRecorder                   // audioRecorder.start()
    | StopRecorder                    // audioRecorder.stop()
    | ReloadPage                      // location.reload()

  /** The state a handler leaves and the commands it issued. */
  datatype Transition = Transition(next: State, effects: seq<Effect>)

  /** Runs `u` after `t`; `u` is computed from `t.next`. */
  function Chain(t: Transition, u: Transition): (r: Transition) {
    Transition(u.next, t.effects + u.effects)
  }

  /** `audioList[0]`: `undefined` for an empty list. */
  function First(clips: seq<string>): (r: Option<string>) {
    if clips == [] then None else Some(clips[0])
  }

  /** The buttons of the effect agree with whether the effect is present. */
  predicate EffectButtonsAgree(s: State) {
    s.buttons.distortDisabled == s.hasDistortion && s.buttons.undoDisabled == !s.hasDistortion
  }

  /** The page loads with distortion enabled and its undo disabled. */
  predicate PageAgrees(page: Buttons) {
    !page.distortDisabled && page.undoDisabled
  }

  /** What every reachable state satisfies: the per-clip flags stay empty,
      an effect only exists beside a source, playback only runs in continuous
      mode, and (for a page whose markup agrees) the effect's buttons agree. */
  predicate Consistent(s: State) {
    && s.flags == []
    && (s.hasDistortion ==> s.hasSource)
    && (s.playing ==> s.continuous)
    && (PageAgrees(s.page) ==> EffectButtonsAgree(s))
  }

  /** The state of a freshly loaded (or reloaded) page. */
  function Initial(page: Buttons): (s: State)
    ensures Consistent(s) && s.page == page
    ensures s.clips == [] && !s.playing && !s.continuous && !s.recording
  {
    State(page, [], [], false, false, false, false, false, false, false, page)
  }

  // ---------------------------------------------------------------- playback

  /** `startPlaying`: both mode flags go on; without a source the first clip is
      played, otherwise the context is suspended and resumed. */
  function StartPlaying(s: State): (r: Transition)
    ensures r.next.playing && r.next.continuous
    ensures r.next.(playing := s.playing, continuous := s.continuous) == s
    ensures !s.hasSource && s.clips != [] ==> r.effects == [PlayAudio(Some(s.clips[0]))]
    ensures !s.hasSource && s.clips == [] ==> r.effects == [PlayAudio(None)]
    ensures s.hasSource ==> r.effects == [SuspendContext, ResumeContext]
    ensures Consistent(s) ==> Consistent(r.next)
  {
    var started := s.(playing := true, continuous := true);
    if !s.hasSource then Transition(started, [PlayAudio(First(s.clips))])
    else Transition(started, [SuspendContext, ResumeContext])
  }

  /** `pausePlayingAll`: only `isPlaying` changes; continuous mode stays on. */
  function PausePlayingAll(s: State): (r: Transition)
    ensures !r.next.playing
    ensures r.next.(playing := s.playing) == s
    ensures s.hasSource <==> r.effects == [SuspendContext]
    ensures !s.hasSource <==> r.effects == []
    ensures Consistent(s) ==> Consistent(r.next)
  {
    Transition(s.(playing := false), if s.hasSource then [SuspendContext] else [])
  }

  /** `togglePlayPause`: nothing on an empty list; otherwise start when idle,
      or pause and take the effect out when playing. */
  function TogglePlayPause(s: State): (r: Transition)
    ensures s.clips == [] ==> r == Transition(s, [])
    ensures r.next.clips == s.clips && r.next.recording == s.recording
    ensures s.clips != [] && !s.playing ==> r == StartPlaying(s)
    ensures s.clips != [] && s.playing ==> !r.next.playing && r.next.continuous == s.continuous
    ensures s.clips != [] && s.playing ==>
              r.next.(playing := s.playing, hasDistortion := s.hasDistortion, buttons := s.buttons) == s
    ensures s.clips != [] && s.playing ==>
              r.effects == (if s.hasSource then [SuspendContext] else [])
    ensures s.clips != [] && s.playing && s.hasSource ==> !r.next.hasDistortion
    ensures s.clips != [] && s.playing && s.hasSource && s.hasDistortion ==>
              r.next.buttons == s.buttons.(distortDisabled := false, undoDisabled := true)
    ensures s.clips != [] && s.playing && !(s.hasSource && s.hasDistortion) ==>
              r.next == s.(playing := false)
    ensures Consistent(s) ==> Consistent(r.next)
  {
    if |s.clips| > 0 then
      if !s.playing then StartPlaying(s)
      else
        var paused := PausePlayingAll(s);
        Chain(paused, UndoDistortAudio(paused.next))
    else Transition(s, [])
  }

  /** Continuation of `playAudio` once the clip's fetch and decode and the
      microphone request have answered: a decoded clip becomes the source; the
      input node is created and the source started only when the microphone
      answered too (otherwise the thrown error leaves the source unstarted). */
  function PlaybackReady(s: State, decoded: bool, micGranted: bool): (r: Transition)
    ensures !decoded ==> r == Transition(s, [])
    ensures decoded ==> r.next.hasSource
    ensures decoded && micGranted ==> r.next.hasInput && r.effects == [StartSource]
    ensures !micGranted ==> r.effects == [] && r.next.hasInput == s.hasInput
    ensures r.next.(hasSource := s.hasSource, hasInput := s.hasInput) == s
    ensures Consistent(s) ==> Consistent(r.next)
  {
    if !decoded then Transition(s, [])
    else if !micGranted then Transition(s.(hasSource := true), [])
    else Transition(s.(hasSource := true, hasInput := true), [StartSource])
  }

  /** The step shared by `audioSource.onended` and the completion of a
      `playContinuously` round: play another round while continuous mode is
      on, otherwise stop playing. */
  function ContinueOrStop(s: State): (r: Transition)
    ensures s.continuous ==> r == Transition(s, [PlayRound])
    ensures !s.continuous ==> !r.next.playing && r.next.(playing := s.playing) == s && r.effects == []
    ensures Consistent(s) ==> Consistent(r.next)
  {
    if s.continuous then Transition(s, [PlayRound])
    else Transition(s.(playing := false), [])
  }

  /** The `then` of `playContinuously`, reached only when the round's promise
      settles: a round with a clip that failed to load never gets here. */
  function RoundSettled(s: State, loads: seq<Rounds.ClipLoad>): (r: Transition)
    ensures (exists i | 0 <= i < |loads| :: loads[i] == Rounds.Failed) ==> r == Transition(s, [])
    ensures Rounds.AllDecoded(loads) ==> r == ContinueOrStop(s)
    ensures Consistent(s) ==> Consistent(r.next)
  {
    if Rounds.PlaySimultaneously(loads) == Rounds.Pending then Transition(s, [])
    else ContinueOrStop(s)
  }

  // -------------------------------------------------------------- distortion

  /** `distortAudio`: creates the effect only beside a source and when there is
      none yet; the two buttons then swap. */
  function DistortAudio(s: State): (r: Transition)
    ensures s.hasSource ==> r.next.hasDistortion
    ensures !s.hasSource || s.hasDistortion ==> r.next == s
    ensures s.hasSource && !s.hasDistortion ==>
              r.next.buttons == s.buttons.(distortDisabled := true, undoDisabled := false)
    ensures r.next.(hasDistortion := s.hasDistortion, buttons := s.buttons) == s
    ensures r.effects == []
    ensures Consistent(s) ==> Consistent(r.next)
  {
    if s.hasSource && !s.hasDistortion then
      Transition(s.(hasDistortion := true,
                    buttons := s.buttons.(undoDisabled := false, distortDisabled := true)), [])
    else Transition(s, [])
  }

  /** `undoDistortAudio`: removes the effect only when a source and an effect
      both exist; the two buttons then swap back. */
  function UndoDistortAudio(s: State): (r: Transition)
    ensures s.hasSource ==> !r.next.hasDistortion
    ensures !s.hasSource || !s.hasDistortion ==> r.next == s
    ensures s.hasSource && s.hasDistortion ==>
              r.next.buttons == s.buttons.(distortDisabled := false, undoDisabled := true)
    ensures r.next.(hasDistortion := s.hasDistortion, buttons := s.buttons) == s
    ensures r.effects == []
    ensures Consistent(s) ==> Consistent(r.next)
  {
    if s.hasSource && s.hasDistortion then
      Transition(s.(hasDistortion := false,
                    buttons := s.buttons.(undoDisabled := true, distortDisabled := false)), [])
    else Transition(s, [])
  }

  // --------------------------------------------------------------- recording

  /** `startRecording`, up to the microphone request. */
  function StartRecording(s: State): (r: Transition)
    ensures r.next.recording
    ensures r.next.(recording := s.recording) == s
    ensures r.effects == [RequestMicrophone]
    ensures Consistent(s) ==> Consistent(r.next)
  {
    Transition(s.(recording := true), [RequestMicrophone])
  }

  /** Continuation of `startRecording` once the microphone has answered: a
      granted stream installs a new recorder and a new input node (whether or
      not recording is still on) and starts the recorder; a refusal is only
      logged, and `isRecording` stays on. */
  function RecorderStream(s: State, granted: bool): (r: Transition)
    ensures !granted ==> r == Transition(s, [])
    ensures granted ==> r.next.hasRecorder && r.next.hasInput && !r.next.buttons.resetDisabled
    ensures granted ==> r.effects == [StartRecorder]
    ensures r.next.(hasRecorder := s.hasRecorder, hasInput := s.hasInput, buttons := s.buttons) == s
    ensures r.next.buttons.(resetDisabled := s.buttons.resetDisabled) == s.buttons
    ensures r.next.recording == s.recording && r.next.playing == s.playing && r.next.clips == s.clips
    ensures Consistent(s) ==> Consistent(r.next)
  {
    if granted then
      Transition(s.(hasRecorder := true, hasInput := true,
                    buttons := s.buttons.(resetDisabled := false)), [StartRecorder])
    else Transition(s, [])
  }

  /** `stopRecording`: recording goes off, the recorder (if any) is stopped,
      the input node is dropped and a continuous round is started. */
  function StopRecording(s: State): (r: Transition)
    ensures !r.next.recording && !r.next.hasInput
    ensures r.next.(recording := s.recording, hasInput := s.hasInput) == s
    ensures s.hasRecorder ==> r.effects == [StopRecorder, PlayRound]
    ensures !s.hasRecorder ==> r.effects == [PlayRound]
    ensures Consistent(s) ==> Consistent(r.next)
  {
    Transition(s.(recording := false, hasInput := false),
               (if s.hasRecorder then [StopRecorder] else []) + [PlayRound])
  }

  /** `toggleRecording`: starts when off; when on, stops and takes the effect out. */
  function ToggleRecording(s: State): (r: Transition)
    ensures r.next.recording == !s.recording
    ensures !s.recording ==> r == StartRecording(s)
    ensures s.recording ==> !r.next.hasInput
    ensures s.recording ==>
              r.next.(recording := s.recording, hasInput := s.hasInput,
                      hasDistortion := s.hasDistortion, buttons := s.buttons) == s
    ensures s.recording ==> r.effects == (if s.hasRecorder then [StopRecorder] else []) + [PlayRound]
    ensures s.recording && s.hasSource ==> !r.next.hasDistortion
    ensures s.recording && s.hasSource && s.hasDistortion ==>
              r.next.buttons == s.buttons.(distortDisabled := false, undoDisabled := true)
    ensures s.recording && !(s.hasSource && s.hasDistortion) ==>
              r.next.hasDistortion == s.hasDistortion && r.next.buttons == s.buttons
    ensures r.next.clips == s.clips && r.next.playing == s.playing && r.next.continuous == s.continuous
    ensures Consistent(s) ==> Consistent(r.next)
  {
    if !s.recording then StartRecording(s)
    else
      var stopped := StopRecording(s);
      Chain(stopped, UndoDistortAudio(stopped.next))
  }

  /** `audioRecorder.ondataavailable`: a non-empty blob's URL is appended to
      the clip list; the per-clip flags are not extended. */
  function DataAvailable(s: State, size: nat, url: string): (r: Transition)
    ensures size > 0 ==> r.next.clips == s.clips + [url]
    ensures size == 0 ==> r.next == s
    ensures r.next.(clips := s.clips) == s
    ensures r.effects == []
    ensures Consistent(s) ==> Consistent(r.next)
  {
    if size > 0 then Transition(s.(clips := s.clips + [url]), []) else Transition(s, [])
  }

  /** `audioRecorder.onstop`: starts playback unless it is already on, and
      drops the input node. */
  function RecorderStopped(s: State): (r: Transition)
    ensures r.next.playing && !r.next.hasInput
    ensures !s.playing ==> r.next.continuous && r.effects == StartPlaying(s).effects
    ensures s.playing ==> r == Transition(s.(hasInput := false), [])
    ensures r.next.(playing := s.playing, continuous := s.continuous, hasInput := s.hasInput) == s
    ensures Consistent(s) ==> Consistent(r.next)
  {
    var started := if !s.playing then StartPlaying(s) else Transition(s, []);
    Transition(started.next.(hasInput := false), started.effects)
  }

  // --------------------------------------------------------- list and reset

  /** `deleteAudioAtIndex`: an index outside the list changes nothing; else
      the clip is spliced out; a list left empty pauses playback (when on)
      and reloads the page. */
  function DeleteAudioAtIndex(s: State, index: int): (r: Transition)
    ensures !(0 <= index < |s.clips|) ==> r == Transition(s, [])
    ensures 0 <= index < |s.clips| && |s.clips| > 1 ==>
              && |r.next.clips| == |s.clips| - 1
              && r.next.clips[..index] == s.clips[..index]
              && r.next.clips[index..] == s.clips[index + 1..]
              && r.next.flags == ClipList.Splice(s.flags, index)
              && r.next.(clips := s.clips, flags := s.flags) == s
              && r.effects == []
    ensures 0 <= index < |s.clips| && |s.clips| == 1 ==>
              && r.next == Initial(s.page)
              && r.effects == (if s.playing && s.hasSource then [SuspendContext] else []) + [ReloadPage]
    ensures Consistent(s) ==> Consistent(r.next)
  {
    if 0 <= index < |s.clips| then
      var spliced := s.(clips := ClipList.Splice(s.clips, index),
                        flags := ClipList.Splice(s.flags, index));
      if |spliced.clips| == 0 then
        var paused := if spliced.playing then PausePlayingAll(spliced) else Transition(spliced, []);
        Chain(paused, Transition(Initial(s.page), [ReloadPage]))
      else Transition(spliced, [])
    else Transition(s, [])
  }

  /** `resetAudioArray`: clears the list and continuous mode, drops the input
      node, pauses playback when on and reloads the page. */
  function ResetAudioArray(s: State): (r: Transition)
    ensures r.next == Initial(s.page)
    ensures r.effects == (if s.playing && s.hasSource then [SuspendContext] else []) + [ReloadPage]
  {
    var cleared := s.(clips := [], continuous := false, hasInput := false,
                      buttons := s.buttons.(resetDisabled := true));
    var paused := if cleared.playing then PausePlayingAll(cleared) else Transition(cleared, []);
    Chain(paused, Transition(Initial(s.page), [ReloadPage]))
  }

  // ------------------------------------------------------------------ lemmas

  /** A second `distortAudio` is a no-op. */
  lemma DistortIdempotent(s: State)
    ensures DistortAudio(DistortAudio(s).next) == Transition(DistortAudio(s).next, [])
  {
  }

  /** `undoDistortAudio` inverts an acting `distortAudio`. */
  lemma UndoInvertsDistort(s: State)
    requires Consistent(s) && PageAgrees(s.page)
    requires s.hasSource && !s.hasDistortion
    ensures UndoDistortAudio(DistortAudio(s).next).next == s
  {
  }

  /** After either distortion handler the two buttons are each other's
      negation, and the undo button is enabled exactly when the effect exists. */
  lemma EffectButtonsOpposite(s: State)
    requires Consistent(s) && PageAgrees(s.page)
    ensures var d := DistortAudio(s).next;
            d.buttons.undoDisabled == !d.buttons.distortDisabled && d.buttons.undoDisabled == !d.hasDistortion
    ensures var u := UndoDistortAudio(s).next;
            u.buttons.undoDisabled == !u.buttons.distortDisabled && u.buttons.undoDisabled == !u.hasDistortion
  {
  }

  /** In a consistent state, `undoDistortAudio` always leaves the effect absent. */
  lemma UndoLeavesNoEffect(s: State)
    requires Consistent(s)
    ensures !UndoDistortAudio(s).next.hasDistortion
  {
  }

  /** Deleting the clip that the recorder just appended to a non-empty list
      restores the state (deleting the only clip reloads the page instead). */
  lemma DeleteUndoesAppend(s: State, size: nat, url: string)
    requires Consistent(s) && s.clips != [] && size > 0
    ensures DeleteAudioAtIndex(DataAvailable(s, size, url).next, |s.clips|) == Transition(s, [])
  {
  }

  /** Deleting the only clip has the same outcome as the reset button. */
  lemma DeleteLastIsReset(s: State)
    requires |s.clips| == 1
    ensures DeleteAudioAtIndex(s, 0) == ResetAudioArray(s)
  {
  }

  /** Pausing leaves continuous mode on, so in a consistent playing state the
      end of a source or of a round always plays another round. */
  lemma PlayingNeverStopsByItself(s: State)
    requires Consistent(s) && s.playing
    ensures ContinueOrStop(s) == Transition(s, [PlayRound])
    ensures PausePlayingAll(s).next.continuous
  {
  }
}
