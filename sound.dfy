/**
 * The playback state machine shared by all sound holders (BaseSoundHolder)
 * and the holder that plays through a hardware-buffered clip
 * (ClipSoundHolder), from package javax.media.utils.loaders.sound.
 *
 * The abstract base class is modelled by composition: every concrete holder
 * owns one BaseSoundHolder object carrying the state, the looping flag and
 * the watchers, and assigns its `state` as the Java subclasses do.
 */
module Sound {
  import opened Wrappers
  import opened Watchers

  /** The four playback states; a new holder is FINISHED. */
  datatype State = StoppedManually | Paused | Playing | Finished

  /**
   * What loadFile's reading of a file comes to: data the audio system
   * takes, data it refuses, or a failure loadFile lets escape (an
   * IOException, including a line that cannot be obtained, or an unchecked
   * exception from the format conversion).
   */
  datatype AudioData = Accepted | Refused | Failed

  /**
   * The exceptions loadFile throws: UnsupportedAudioFileException for
   * refused data, and the escaping failure otherwise.
   */
  datatype SoundError = UnsupportedAudioFile | LoadFailed

  /** State, looping flag and watchers common to all sound holders. */
  class BaseSoundHolder {
    var watchers: set<Watcher>
    var isLooping: bool
    var state: State
    /** Callbacks delivered to watchers so far, oldest first. */
    var notices: seq<Notice>

    /** The state of a holder that has not been used yet. */
    ghost predicate Initial()
      reads this
    {
      watchers == {} && !isLooping && state == Finished && notices == []
    }

    constructor ()
      ensures Initial()
    {
      watchers := {};
      isLooping := false;
      state := Finished;
      notices := [];
    }

    /** Takes effect at the next end of the stream. */
    method SetLooping(enable: bool)
      modifies this`isLooping
      ensures isLooping == enable
    {
      isLooping := enable;
    }

    /** Registering a watcher twice is the same as once. */
    method AddWatcher(w: Watcher)
      modifies this`watchers
      ensures watchers == old(watchers) + {w}
    {
      watchers := watchers + {w};
    }

    /** Removes only `w`; removing an absent watcher does nothing. */
    method RemoveWatcher(w: Watcher)
      modifies this`watchers
      ensures watchers == old(watchers) - {w}
    {
      watchers := watchers - {w};
    }

    /** Tells every watcher once that the sound ended. */
    method OnFinish()
      modifies this`notices
      ensures old(notices) <= notices
      ensures Fanout(notices[|old(notices)|..], watchers, SequenceEnded)
    {
      var log := Broadcast(watchers, SequenceEnded);
      notices := notices + log;
      assert notices[|old(notices)|..] == log;
    }

    /** Tells every watcher once that the sound looped. */
    method OnLoop()
      modifies this`notices
      ensures old(notices) <= notices
      ensures Fanout(notices[|old(notices)|..], watchers, SequenceLooped)
    {
      var log := Broadcast(watchers, SequenceLooped);
      notices := notices + log;
      assert notices[|old(notices)|..] == log;
    }
  }

  /** An opened clip line: the play position (microseconds) and whether it plays. */
  datatype Clip = Clip(position: int, running: bool)

  /** javax.sound.sampled.LineEvent.Type. */
  datatype LineEventType = LineOpen | LineClose | LineStart | LineStop

  /** A sound played through a clip; every operation does nothing until a clip is loaded. */
  class ClipSoundHolder {
    const base: BaseSoundHolder
    /** None until loadFile opened a clip. */
    var clip: Option<Clip>

    constructor ()
      ensures fresh(base) && base.Initial() && clip == None
    {
      base := new BaseSoundHolder();
      clip := None;
    }

    /**
     * loadFile, with decoding and the device's line check reduced to
     * `data`: accepted data opens a stopped clip at position 0; refused
     * data (an unreadable format, or no line for it) throws
     * UnsupportedAudioFileException; any other failure escapes as it is.
     */
    method LoadFile(data: AudioData) returns (r: Outcome<SoundError>)
      modifies this`clip
      ensures r.Pass? <==> data == Accepted
      ensures data == Accepted ==> clip == Some(Clip(0, false))
      ensures data == Refused ==> r == Fail(UnsupportedAudioFile) && clip == old(clip)
      ensures data == Failed ==> r == Fail(LoadFailed) && clip == old(clip)
    {
      match data
      case Refused =>
        return Fail(UnsupportedAudioFile);
      case Failed =>
        return Fail(LoadFailed);
      case Accepted =>
        clip := Some(Clip(0, false));
        return Pass;
    }

    /** Plays from the start. */
    method Play()
      modifies this`clip, base`state
      ensures old(clip).None? ==> clip == old(clip) && base.state == old(base.state)
      ensures old(clip).Some? ==> clip == Some(Clip(0, true)) && base.state == Playing
    {
      if clip.None? {
        return;
      }
      base.state := Playing;
      Seek(0);
      clip := Some(clip.value.(running := true));
    }

    /** Stops manually, so that the device's stop event is not taken for the end. */
    method Stop()
      modifies this`clip, base`state
      ensures old(clip).None? ==> clip == old(clip) && base.state == old(base.state)
      ensures old(clip).Some? ==> clip == Some(old(clip).value.(running := false)) && base.state == StoppedManually
    {
      if clip.None? {
        return;
      }
      base.state := StoppedManually;
      clip := Some(clip.value.(running := false));
    }

    /** Halts output and keeps the position. */
    method Pause()
      modifies this`clip, base`state
      ensures old(clip).None? ==> clip == old(clip) && base.state == old(base.state)
      ensures old(clip).Some? ==> clip == Some(old(clip).value.(running := false)) && base.state == Paused
    {
      if clip.None? {
        return;
      }
      base.state := Paused;
      clip := Some(clip.value.(running := false));
    }

    /** Plays on from the current position, whatever the state was. */
    method Resume()
      modifies this`clip, base`state
      ensures old(clip).None? ==> clip == old(clip) && base.state == old(base.state)
      ensures old(clip).Some? ==> clip == Some(old(clip).value.(running := true)) && base.state == Playing
    {
      if clip.None? {
        return;
      }
      base.state := Playing;
      clip := Some(clip.value.(running := true));
    }

    /** Moves the play position; the state is untouched. */
    method Seek(position: int)
      modifies this`clip
      ensures old(clip).None? ==> clip == old(clip)
      ensures old(clip).Some? ==> clip == Some(old(clip).value.(position := position))
    {
      if clip.None? {
        return;
      }
      clip := Some(clip.value.(position := position));
    }

    /**
     * update: the clip's line listener. Only a STOP event that arrives while
     * PLAYING is the natural end of the sound: a looping sound tells its
     * watchers it looped and plays again from the start, any other becomes
     * FINISHED and tells its watchers it ended. Every other event, or a STOP
     * in another state (after stop() or pause()), is ignored.
     */
    method Update(event: LineEventType)
      modifies this`clip, base`state, base`notices
      ensures old(clip).None? || old(base.state) != Playing || event != LineStop ==>
        clip == old(clip) && base.state == old(base.state) && base.notices == old(base.notices)
      ensures old(clip).Some? && old(base.state) == Playing && event == LineStop ==>
        && old(base.notices) <= base.notices
        && (base.isLooping ==>
              && base.state == Playing && clip == Some(Clip(0, true))
              && Fanout(base.notices[|old(base.notices)|..], base.watchers, SequenceLooped))
        && (!base.isLooping ==>
              && base.state == Finished && clip == Some(old(clip).value.(running := false))
              && Fanout(base.notices[|old(base.notices)|..], base.watchers, SequenceEnded))
    {
      if clip.None? {
        return;
      }
      if base.state != Playing {
        return;
      }
      if event == LineStop {
        if base.isLooping {
          base.OnLoop();
          clip := Some(clip.value.(position := 0, running := true));
        } else {
          // the stop event means the line has stopped
          clip := Some(clip.value.(running := false));
          base.state := Finished;
          base.OnFinish();
        }
      }
    }
  }
}
