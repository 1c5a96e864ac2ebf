/**
  The page's module-level variables as the fields of one object, and each
  handler of `main.js` as a method that updates them in place. Every method
  is proved to leave exactly the state, and to issue exactly the commands,
  that the matching function of `Transitions` describes.
 */
module App {
  import opened Transitions
  import ClipList
  import Rounds

  class Session {
    const page: Buttons
    var clips: seq<string>       // audioList
    var flags: seq<bool>         // isPlayingArray
    var recording: bool          // isRecording
    var playing: bool            // isPlaying
    var continuous: bool         // isContinuousPlayback
    var hasSource: bool          // audioSource is set
    var hasDistortion: bool      // distortionNode is set
    var hasInput: bool           // inputAudioNode is set
    var hasRecorder: bool        // audioRecorder is set
    var buttons: Buttons
    /** Every command issued to the platform so far, oldest first. */
    ghost var log: seq<Effect>

    /** The fields as a `Transitions.State`. */
    function Snapshot(): (s: State)
      reads this
    {
      State(page, clips, flags, recording, playing, continuous,
            hasSource, hasDistortion, hasInput, hasRecorder, buttons)
    }

    ghost predicate Valid()
      reads this
    {
      Consistent(Snapshot())
    }

    /** The page as it loads. */
    constructor (page: Buttons)
      ensures Snapshot() == Initial(page) && Valid()
      ensures log == []
    {
      this.page := page;
      clips, flags := [], [];
      recording, playing, continuous := false, false, false;
      hasSource, hasDistortion, hasInput, hasRecorder := false, false, false, false;
      buttons := page;
      log := [];
    }

    /** `location.reload()`: the session returns to the state the page loads in. */
    method Reload()
      modifies this
      ensures Snapshot() == Initial(page) && Valid()
      ensures log == old(log) + [ReloadPage]
    {
      clips, flags := [], [];
      recording, playing, continuous := false, false, false;
      hasSource, hasDistortion, hasInput, hasRecorder := false, false, false, false;
      buttons := page;
      log := log + [ReloadPage];
    }

    method TogglePlayPause()
      requires Valid()
      modifies this
      ensures Valid()
      ensures Snapshot() == Transitions.TogglePlayPause(old(Snapshot())).next
      ensures log == old(log) + Transitions.TogglePlayPause(old(Snapshot())).effects
    {
      if |clips| > 0 {
        if !playing {
          StartPlaying();
        } else {
          PausePlayingAll();
          UndoDistortAudio();
        }
      }
    }

    method StartPlaying()
      requires Valid()
      modifies this
      ensures Valid()
      ensures Snapshot() == Transitions.StartPlaying(old(Snapshot())).next
      ensures log == old(log) + Transitions.StartPlaying(old(Snapshot())).effects
    {
      playing := true;
      continuous := true;
      if !hasSource {
        log := log + [PlayAudio(First(clips))];
      } else {
        log := log + [SuspendContext, ResumeContext];
      }
    }

    /** `resetAudioArray` calls this after clearing continuous mode while still
        playing, a moment at which `Valid()` does not hold; so this one keeps
        `Valid()` rather than requiring it. */
    method PausePlayingAll()
      modifies this
      ensures old(Valid()) ==> Valid()
      ensures Snapshot() == Transitions.PausePlayingAll(old(Snapshot())).next
      ensures log == old(log) + Transitions.PausePlayingAll(old(Snapshot())).effects
    {
      playing := false;
      if hasSource {
        log := log + [SuspendContext];
      }
    }

    /** The part of `playAudio` after the clip is decoded and the microphone
        has answered. */
    method OnPlaybackReady(decoded: bool, micGranted: bool)
      requires Valid()
      modifies this
      ensures Valid()
      ensures Snapshot() == Transitions.PlaybackReady(old(Snapshot()), decoded, micGranted).next
      ensures log == old(log) + Transitions.PlaybackReady(old(Snapshot()), decoded, micGranted).effects
    {
      if decoded {
        hasSource := true;
        if micGranted {
          hasInput := true;
          log := log + [StartSource];
        }
      }
    }

    /** `audioSource.onended`, and the completion of a settled round. */
    method ContinueOrStop()
      requires Valid()
      modifies this
      ensures Valid()
      ensures Snapshot() == Transitions.ContinueOrStop(old(Snapshot())).next
      ensures log == old(log) + Transitions.ContinueOrStop(old(Snapshot())).effects
    {
      if continuous {
        log := log + [PlayRound];
      } else {
        playing := false;
      }
    }

    /** `playContinuously`'s continuation, for a round whose clips loaded as
        `loads` says. */
    method OnRoundSettled(loads: seq<Rounds.ClipLoad>)
      requires Valid()
      modifies this
      ensures Valid()
      ensures Snapshot() == Transitions.RoundSettled(old(Snapshot()), loads).next
      ensures log == old(log) + Transitions.RoundSettled(old(Snapshot()), loads).effects
    {
      if Rounds.PlaySimultaneously(loads) != Rounds.Pending {
        ContinueOrStop();
      }
    }

    method DistortAudio()
      requires Valid()
      modifies this
      ensures Valid()
      ensures Snapshot() == Transitions.DistortAudio(old(Snapshot())).next
      ensures log == old(log)
    {
      if hasSource && !hasDistortion {
        hasDistortion := true;
        buttons := buttons.(undoDisabled := false, distortDisabled := true);
      }
    }

    method UndoDistortAudio()
      requires Valid()
      modifies this
      ensures Valid()
      ensures Snapshot() == Transitions.UndoDistortAudio(old(Snapshot())).next
      ensures log == old(log)
    {
      if hasSource && hasDistortion {
        hasDistortion := false;
        buttons := buttons.(undoDisabled := true, distortDisabled := false);
      }
    }

    method ToggleRecording()
      requires Valid()
      modifies this
      ensures Valid()
      ensures Snapshot() == Transitions.ToggleRecording(old(Snapshot())).next
      ensures log == old(log) + Transitions.ToggleRecording(old(Snapshot())).effects
    {
      if !recording {
        StartRecording();
      } else {
        StopRecording();
        UndoDistortAudio();
      }
    }

    method StartRecording()
      requires Valid()
      modifies this
      ensures Valid()
      ensures Snapshot() == Transitions.StartRecording(old(Snapshot())).next
      ensures log == old(log) + Transitions.StartRecording(old(Snapshot())).effects
    {
      recording := true;
      log := log + [RequestMicrophone];
    }

    /** The continuation of `startRecording` once the microphone has answered. */
    method OnRecorderStream(granted: bool)
      requires Valid()
      modifies this
      ensures Valid()
      ensures Snapshot() == Transitions.RecorderStream(old(Snapshot()), granted).next
      ensures log == old(log) + Transitions.RecorderStream(old(Snapshot()), granted).effects
    {
      if granted {
        hasRecorder := true;
        hasInput := true;
        log := log + [StartRecorder];
        buttons := buttons.(resetDisabled := false);
      }
    }

    method StopRecording()
      requires Valid()
      modifies this
      ensures Valid()
      ensures Snapshot() == Transitions.StopRecording(old(Snapshot())).next
      ensures log == old(log) + Transitions.StopRecording(old(Snapshot())).effects
    {
      recording := false;
      if hasRecorder {
        log := log + [StopRecorder];
      }
      hasInput := false;
      log := log + [PlayRound];
    }

    /** `audioRecorder.ondataavailable` for a blob of `size` bytes whose object
        URL is `url`. */
    method OnDataAvailable(size: nat, url: string)
      requires Valid()
      modifies this
      ensures Valid()
      ensures Snapshot() == Transitions.DataAvailable(old(Snapshot()), size, url).next
      ensures log == old(log)
    {
      if size > 0 {
        clips := clips + [url];
      }
    }

    /** `audioRecorder.onstop`. */
    method OnRecorderStop()
      requires Valid()
      modifies this
      ensures Valid()
      ensures Snapshot() == Transitions.RecorderStopped(old(Snapshot())).next
      ensures log == old(log) + Transitions.RecorderStopped(old(Snapshot())).effects
    {
      if !playing {
        StartPlaying();
      }
      hasInput := false;
    }

    method DeleteAudioAtIndex(index: int)
      requires Valid()
      modifies this
      ensures Valid()
      ensures Snapshot() == Transitions.DeleteAudioAtIndex(old(Snapshot()), index).next
      ensures log == old(log) + Transitions.DeleteAudioAtIndex(old(Snapshot()), index).effects
    {
      if 0 <= index < |clips| {
        clips := ClipList.Splice(clips, index);
        flags := ClipList.Splice(flags, index);
        if playing && |clips| == 0 {
          PausePlayingAll();
        }
        if |clips| == 0 {
          Reload();
        }
      }
    }

    method ResetAudioArray()
      requires Valid()
      modifies this
      ensures Valid()
      ensures Snapshot() == Transitions.ResetAudioArray(old(Snapshot())).next
      ensures log == old(log) + Transitions.ResetAudioArray(old(Snapshot())).effects
    {
      clips := [];
      continuous := false;
      hasInput := false;
      buttons := buttons.(resetDisabled := true);
      if playing {
        PausePlayingAll();
      }
      Reload();
    }
  }
}
