/**
 * MIDI playback (MidiLoader, MidiSoundHolder): every MIDI holder plays
 * through the one sequencer its loader owns, and the loader arbitrates which
 * holder may use it. At most one holder is current; only the current holder
 * may start, pause, seek or resume the sequencer, and only it is registered
 * to receive the sequencer's meta events.
 */
module Midi {
  import opened Wrappers
  import opened Watchers
  import opened Sound

  /** The MIDI meta-event type that ends a track. */
  const END_OF_TRACK := 47

  /** The shared sequencer device: the loaded sequence, the play position and whether it runs. */
  datatype Sequencer = Sequencer(sequence: Option<string>, position: int, running: bool)

  /** The exception getMidiHolder throws for a name that is taken. */
  datatype MidiError = KeyAlreadyExists(name: string)

  /**
   * How play() ends: normally, with the dereference of the null sequencer a
   * denied request returns, or with the InvalidAudioDataException a sequence
   * the sequencer refuses becomes.
   */
  datatype PlayOutcome = Returned | NullPointer | InvalidAudioData

  class MidiLoader {
    var sequencer: Sequencer
    /** False once close() has shut the sequencer down (the Java field is then null). */
    var open: bool
    var midisMap: map<string, MidiSoundHolder>
    /** The holder that may use the sequencer, or null. */
    var currentMidi: MidiSoundHolder?
    /** The holders registered for the sequencer's meta events. */
    var listeners: set<MidiSoundHolder>

    /**
     * The arbitration invariant: the only listener is the current holder,
     * which belongs to this loader and has a sequence loaded.
     */
    ghost predicate Valid()
      reads this, currentMidi
    {
      if currentMidi == null then listeners == {}
      else listeners == {currentMidi} && currentMidi.loader == this && currentMidi.sequence.Some?
    }

    /** A loader whose sequencer was found and opened. */
    constructor ()
      ensures Valid() && open
      ensures sequencer == Sequencer(None, 0, false) && midisMap == map[] && currentMidi == null
    {
      sequencer := Sequencer(None, 0, false);
      open := true;
      midisMap := map[];
      currentMidi := null;
      listeners := {};
    }

    /** Creates, binds and returns a new holder, unless the name is taken. */
    method GetMidiHolder(name: string) returns (r: Result<MidiSoundHolder, MidiError>)
      requires Valid()
      modifies this`midisMap
      ensures Valid()
      ensures name in old(midisMap) ==> r == Err(KeyAlreadyExists(name)) && midisMap == old(midisMap)
      ensures name !in old(midisMap) ==>
        && r.Ok? && fresh(r.value) && fresh(r.value.base) && r.value.base.Initial()
        && r.value.loader == this && r.value.sequence == None
        && midisMap == old(midisMap)[name := r.value]
    {
      if name in midisMap {
        return Err(KeyAlreadyExists(name));
      }
      var h := new MidiSoundHolder(this);
      midisMap := midisMap[name := h];
      return Ok(h);
    }

    /** The holder bound to `name`, if any. */
    function GetMidi(name: string): (r: Option<MidiSoundHolder>)
      reads this
      ensures r.Some? <==> name in midisMap
      ensures r.Some? ==> r.value == midisMap[name]
    {
      if name in midisMap then Some(midisMap[name]) else None
    }

    /** Gives up the sequencer if `s` holds it; any other holder's notice changes nothing. */
    method NotifyStoppedPlaying(s: MidiSoundHolder)
      requires Valid()
      modifies this`currentMidi, this`listeners
      ensures Valid()
      ensures old(currentMidi) == s ==> currentMidi == null && listeners == old(listeners) - {s} == {}
      ensures old(currentMidi) != s ==> currentMidi == old(currentMidi) && listeners == old(listeners)
    {
      if currentMidi == s {
        currentMidi := null;
        listeners := listeners - {s};
      }
    }

    /**
     * Grants the sequencer to `s` when nobody holds it or `s` already does,
     * and registers `s` for meta events; a request while another holder plays
     * is denied and changes nothing.
     */
    method RequestPlay(s: MidiSoundHolder) returns (granted: bool)
      requires Valid() && s.loader == this && s.sequence.Some?
      modifies this`currentMidi, this`listeners
      ensures Valid()
      ensures granted <==> old(currentMidi) == null || old(currentMidi) == s
      ensures granted ==> currentMidi == s && listeners == old(listeners) + {s} == {s}
      ensures !granted ==> currentMidi == old(currentMidi) && listeners == old(listeners)
    {
      if currentMidi != null && currentMidi != s {
        return false;
      }
      currentMidi := s;
      listeners := listeners + {s};
      return true;
    }

    /** The sequencer is handed out only to the current holder, which is the only one hearing meta events. */
    predicate RequestSequencer(s: MidiSoundHolder)
      reads this, currentMidi
      ensures Valid() ==> (RequestSequencer(s) <==> s in listeners)
    {
      currentMidi == s
    }

    /** Stops the current holder, if any, then stops and shuts the sequencer. */
    method Close()
      requires Valid() && open
      modifies this, if currentMidi == null then {} else {currentMidi.base}
      ensures Valid() && !open
      ensures currentMidi == null && listeners == {} && !sequencer.running
      ensures midisMap == old(midisMap)
      ensures old(currentMidi) != null ==> old(currentMidi).base.state == StoppedManually
    {
      if currentMidi != null {
        var c := currentMidi;
        c.Stop();
      }
      if sequencer.running {
        sequencer := sequencer.(running := false);
      }
      open := false;
    }
  }

  /** A sound stored in MIDI format, played on its loader's shared sequencer. */
  class MidiSoundHolder {
    const base: BaseSoundHolder
    const loader: MidiLoader
    /** None until loadFile read a sequence. */
    var sequence: Option<string>

    constructor (loader: MidiLoader)
      ensures this.loader == loader && sequence == None
      ensures fresh(base) && base.Initial()
    {
      base := new BaseSoundHolder();
      this.loader := loader;
      sequence := None;
    }

    /** The holder that currently may use the sequencer, or must not touch it. */
    ghost predicate Current()
      reads this, loader
    {
      sequence.Some? && loader.currentMidi == this
    }

    /**
     * loadFile, with the decoding of the file reduced to `data`: a valid
     * MIDI file becomes the holder's sequence, invalid MIDI data is reported
     * as an unsupported audio file, and an IOException escapes as it is.
     */
    method LoadFile(file: string, data: AudioData) returns (r: Outcome<SoundError>)
      requires loader.Valid()
      modifies this`sequence
      ensures loader.Valid()
      ensures r.Pass? <==> data == Accepted
      ensures data == Accepted ==> sequence == Some(file)
      ensures data == Refused ==> r == Fail(UnsupportedAudioFile) && sequence == old(sequence)
      ensures data == Failed ==> r == Fail(LoadFailed) && sequence == old(sequence)
    {
      match data
      case Refused =>
        return Fail(UnsupportedAudioFile);
      case Failed =>
        return Fail(LoadFailed);
      case Accepted =>
        sequence := Some(file);
        return Pass;
    }

    /**
     * play, as written: without a sequence nothing happens; otherwise the
     * holder asks the loader for the sequencer, and when the request is
     * granted plays its sequence from tick 0. A denied request hands back no
     * sequencer, which play then dereferences. `accepted` says whether the
     * sequencer takes the sequence; when it does not, play throws
     * InvalidAudioDataException with the holder already current and
     * listening, the sequencer untouched and the state unchanged.
     */
    method Play(accepted: bool) returns (r: PlayOutcome)
      requires loader.Valid() && loader.open
      modifies base`state, loader`currentMidi, loader`listeners, loader`sequencer
      ensures loader.Valid()
      ensures sequence.None? ==> r == Returned && unchanged(loader) && base.state == old(base.state)
      ensures sequence.Some? && old(loader.currentMidi) != null && old(loader.currentMidi) != this ==>
        r == NullPointer && unchanged(loader) && base.state == old(base.state)
      ensures sequence.Some? && (old(loader.currentMidi) == null || old(loader.currentMidi) == this) ==>
        && Current() && loader.listeners == {this}
        && (accepted ==> r == Returned && loader.sequencer == Sequencer(sequence, 0, true) && base.state == Playing)
        && (!accepted ==> r == InvalidAudioData && loader.sequencer == old(loader.sequencer) && base.state == old(base.state))
    {
      if sequence.None? {
        return Returned;
      }
      var granted := loader.RequestPlay(this);
      if !granted {
        return NullPointer;
      }
      if !accepted {
        return InvalidAudioData;
      }
      loader.sequencer := loader.sequencer.(sequence := sequence, position := 0);
      base.state := Playing;
      loader.sequencer := loader.sequencer.(running := true);
      return Returned;
    }

    /**
     * play as its contract describes it: a holder denied the sequencer
     * because another holder plays does nothing and returns normally; a
     * sequence the sequencer does not take still throws
     * InvalidAudioDataException.
     */
    method PlayWhenFree(accepted: bool) returns (r: PlayOutcome)
      requires loader.Valid() && loader.open
      modifies base`state, loader`currentMidi, loader`listeners, loader`sequencer
      ensures loader.Valid()
      ensures r != NullPointer
      ensures sequence.None? || (old(loader.currentMidi) != null && old(loader.currentMidi) != this) ==>
        r == Returned && unchanged(loader) && base.state == old(base.state)
      ensures sequence.Some? && (old(loader.currentMidi) == null || old(loader.currentMidi) == this) ==>
        && Current() && loader.listeners == {this}
        && (accepted ==> r == Returned && loader.sequencer == Sequencer(sequence, 0, true) && base.state == Playing)
        && (!accepted ==> r == InvalidAudioData && loader.sequencer == old(loader.sequencer) && base.state == old(base.state))
    {
      if sequence.None? {
        return Returned;
      }
      var granted := loader.RequestPlay(this);
      if !granted {
        return Returned;
      }
      if !accepted {
        return InvalidAudioData;
      }
      loader.sequencer := loader.sequencer.(sequence := sequence, position := 0);
      base.state := Playing;
      loader.sequencer := loader.sequencer.(running := true);
      return Returned;
    }

    /**
     * Stops the sequencer and releases it, when this holder holds it; the
     * stop of any other holder changes neither its state nor the arbiter.
     */
    method Stop()
      requires loader.Valid()
      modifies base`state, loader`currentMidi, loader`listeners, loader`sequencer
      ensures loader.Valid()
      ensures !old(Current()) ==> unchanged(loader) && base.state == old(base.state)
      ensures old(Current()) ==>
        && base.state == StoppedManually && loader.sequencer == old(loader.sequencer).(running := false)
        && loader.currentMidi == null && loader.listeners == {}
    {
      if sequence.None? {
        return;
      }
      if loader.RequestSequencer(this) {
        base.state := StoppedManually;
        if loader.sequencer.running {
          loader.sequencer := loader.sequencer.(running := false);
        }
      }
      loader.NotifyStoppedPlaying(this);
    }

    /** Halts the sequencer and keeps the sequencer and its position, when this holder holds it. */
    method Pause()
      requires loader.Valid()
      modifies base`state, loader`sequencer
      ensures !Current() ==> loader.sequencer == old(loader.sequencer) && base.state == old(base.state)
      ensures Current() ==> base.state == Paused && loader.sequencer == old(loader.sequencer).(running := false)
    {
      if sequence.None? {
        return;
      }
      if loader.RequestSequencer(this) {
        base.state := Paused;
        if loader.sequencer.running {
          loader.sequencer := loader.sequencer.(running := false);
        }
      }
    }

    /** Moves the sequencer's position (microseconds), when this holder holds it. */
    method Seek(position: int)
      requires loader.Valid()
      modifies loader`sequencer
      ensures !Current() ==> loader.sequencer == old(loader.sequencer)
      ensures Current() ==> loader.sequencer == old(loader.sequencer).(position := position)
    {
      if sequence.None? {
        return;
      }
      if loader.RequestSequencer(this) {
        loader.sequencer := loader.sequencer.(position := position);
      }
    }

    /** Runs the sequencer on from its position, when this holder holds it. */
    method Resume()
      requires loader.Valid()
      modifies base`state, loader`sequencer
      ensures !Current() ==> loader.sequencer == old(loader.sequencer) && base.state == old(base.state)
      ensures Current() ==> base.state == Playing && loader.sequencer == old(loader.sequencer).(running := true)
    {
      if sequence.None? {
        return;
      }
      if loader.RequestSequencer(this) {
        base.state := Playing;
        if !loader.sequencer.running {
          loader.sequencer := loader.sequencer.(running := true);
        }
      }
    }

    /**
     * meta: the sequencer's meta-event callback. Only END_OF_TRACK arriving
     * while PLAYING is the natural end: a looping sound tells its watchers it
     * looped and, if it holds the sequencer, plays again from position 0; any
     * other becomes FINISHED and tells its watchers it ended. Every other
     * event, or an event in another state, is ignored.
     */
    method Meta(messageType: int)
      requires loader.Valid()
      modifies base`state, base`notices, loader`sequencer
      ensures sequence.None? || old(base.state) != Playing || messageType != END_OF_TRACK ==>
        && loader.sequencer == old(loader.sequencer)
        && base.state == old(base.state) && base.notices == old(base.notices)
      ensures sequence.Some? && old(base.state) == Playing && messageType == END_OF_TRACK ==>
        && old(base.notices) <= base.notices
        && (base.isLooping ==>
              && base.state == Playing
              && Fanout(base.notices[|old(base.notices)|..], base.watchers, SequenceLooped)
              && (Current() ==> loader.sequencer == old(loader.sequencer).(position := 0, running := true))
              && (!Current() ==> loader.sequencer == old(loader.sequencer)))
        && (!base.isLooping ==>
              && base.state == Finished
              && (Current() ==> loader.sequencer == old(loader.sequencer).(running := false))
              && (!Current() ==> loader.sequencer == old(loader.sequencer))
              && Fanout(base.notices[|old(base.notices)|..], base.watchers, SequenceEnded))
    {
      if sequence.None? {
        return;
      }
      if base.state != Playing {
        return;
      }
      if messageType == END_OF_TRACK {
        if base.isLooping {
          base.OnLoop();
          Seek(0);
          Resume();
        } else {
          // the sequencer of the holder playing the track stops by itself at its end
          if loader.RequestSequencer(this) {
            loader.sequencer := loader.sequencer.(running := false);
          }
          base.state := Finished;
          base.OnFinish();
        }
      }
    }
  }
}
