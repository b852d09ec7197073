/**
 * The sound registry (SoundLoader): sound names, each the stem of a sound
 * file's name, bound to sound holders, filled from a configuration whose
 * lines name a MIDI file (`m FILE`) or a sampled clip (`c FILE`). All MIDI
 * holders come from one MidiLoader, created by the first `m` line that
 * needs it and shared by every later one, because only one MIDI sequence
 * can play at a time.
 */
module SoundLoading {
  import opened Wrappers
  import opened ConfigText
  import opened Sound
  import opened Midi

  /* ---------- configuration lines ---------- */

  /** A sound configuration line, once its words are counted. */
  datatype SoundCommand =
    | Skip                               // blank, or a `//` comment
    | Play(command: char, file: string)  // the lower-cased first character and the one file named

  /**
   * The syntactic part of a line: after the first word there must be
   * exactly one more, the file. What the command character means is decided
   * only once the file is known to be readable.
   */
  function ParseSoundLine(raw: string): (r: Result<SoundCommand, LineError>)
    ensures r == Ok(Skip) <==> Trim(raw) == [] || IsComment(Trim(raw))
    ensures r.Err? ==> r.error == NoSoundFile && |Arguments(Trim(raw))| != 1
    ensures r.Ok? && r.value.Play? ==>
      && r.value.command == ToLower(Trim(raw)[0])
      && IsWord(r.value.file) && Arguments(Trim(raw)) == [r.value.file]
  {
    var line := Trim(raw);
    if line == [] || IsComment(line) then Ok(Skip)
    else
      var args := Arguments(line);
      if |args| != 1 then Err(NoSoundFile) else Ok(Play(ToLower(line[0]), args[0]))
  }

  lemma TrimmedSoundLine(command: string, file: string)
    requires command != [] && file != []
    requires !IsSpace(command[0]) && !IsSpace(file[|file| - 1])
    ensures Trim(command + " " + file) == command + " " + file
  {
    var line := command + " " + file;
    assert line == [] + line + [];
    TrimPadded([], line, []);
  }

  lemma SoundLineArguments(command: string, file: string)
    requires IsWord(command) && IsWord(file)
    ensures Arguments(command + " " + file) == [file]
  {
    assert Unwords([command, file]) == command + " " + file by {
      assert Unwords([command, file][1..]) == file;
    }
    TokensUnwords([command, file]);
  }

  /** A command word and a file written with one space between them are read back as that command and that file. */
  lemma SoundLineRoundTrip(command: string, file: string)
    requires IsWord(command) && IsWord(file)
    requires !IsSpace(command[0]) && !IsSpace(file[|file| - 1]) && command[0] != '/'
    ensures ParseSoundLine(command + " " + file) == Ok(Play(ToLower(command[0]), file))
  {
    var line := command + " " + file;
    TrimmedSoundLine(command, file);
    SoundLineArguments(command, file);
    assert line[0] == command[0];
    assert !IsComment(line);
  }

  /** Every line of a configuration, parsed. */
  function ParseSounds(lines: seq<string>): (r: seq<Result<SoundCommand, LineError>>)
    ensures |r| == |lines|
  {
    seq(|lines|, i requires 0 <= i < |lines| => ParseSoundLine(lines[i]))
  }

  /* ---------- what a line does to the registry ---------- */

  datatype SoundKind = ClipKind | MidiKind

  /**
   * The registry as reading sees it: the kind of holder bound to each sound
   * name, and the names the MIDI loader has handed out holders for (None
   * while no MIDI loader exists).
   */
  datatype Registry = Registry(sounds: map<string, SoundKind>, midiNames: Option<set<string>>)

  /**
   * A `c` line for a readable file: a new clip holder replaces whatever the
   * name was bound to. Refused data rejects the line; a failure the reader
   * does not catch ends reading.
   */
  function ClipStep(name: string, data: AudioData, reg: Registry): (LineOutcome, Registry)
  {
    match data
    case Accepted => (Done, reg.(sounds := reg.sounds[name := ClipKind]))
    case Refused => (Rejected(AudioLoadFailed), reg)
    case Failed => (Threw, reg)
  }

  /**
   * An `m` line for a readable file: the MIDI loader is created if there is
   * none yet, and refuses a name it handed out before. The loader registers
   * the name before the file is decoded, so a name whose data turns out to
   * be unsupported, or whose reading fails, stays taken in the loader
   * without being bound to a sound.
   */
  function MidiStep(name: string, data: AudioData, reg: Registry, midiAvailable: bool): (LineOutcome, Registry)
  {
    if reg.midiNames.None? && !midiAvailable then (Rejected(MidiUnavailable), reg)
    else
      var names := if reg.midiNames.Some? then reg.midiNames.value else {};
      if name in names then (Rejected(LineError.KeyAlreadyExists(name)), reg.(midiNames := Some(names)))
      else
        match data
        case Accepted => (Done, Registry(reg.sounds[name := MidiKind], Some(names + {name})))
        case Refused => (Rejected(AudioLoadFailed), reg.(midiNames := Some(names + {name})))
        case Failed => (Threw, reg.(midiNames := Some(names + {name})))
  }

  /**
   * One line of loadSoundsFromConfig. The file is resolved against the
   * configuration's directory and the sound is named by the file's stem.
   * The checks come in the source's order: the word count (at parsing),
   * then readability, then the command character, then the loader's
   * refusals, then decoding. `readable` stands for exists-and-canRead,
   * `audio` for what loading the file's data comes to and
   * `midiAvailable` for a MIDI sequencer being obtainable.
   */
  function SoundStep(parsed: Result<SoundCommand, LineError>, reg: Registry, dir: Option<string>,
                     readable: string -> bool, audio: string -> AudioData, midiAvailable: bool): (LineOutcome, Registry)
  {
    match parsed
    case Err(e) => (Rejected(e), reg)
    case Ok(Skip) => (Done, reg)
    case Ok(Play(command, file)) =>
      var path := Resolve(dir, file);
      if !readable(path) then (Rejected(SoundUnreadable), reg)
      else if command == 'm' then MidiStep(FileIndex(path), audio(path), reg, midiAvailable)
      else if command == 'c' then ClipStep(FileIndex(path), audio(path), reg)
      else (Rejected(UnknownSoundCommand), reg)
  }

  /** The sound name a line binds when it goes through. */
  function LineName(parsed: Result<SoundCommand, LineError>, dir: Option<string>): Option<string>
  {
    if parsed.Ok? && parsed.value.Play? then Some(FileIndex(Resolve(dir, parsed.value.file))) else None
  }

  /** A line that binds a name: parsed, readable, with a known command and accepted data. */
  predicate SoundPasses(parsed: Result<SoundCommand, LineError>, dir: Option<string>,
                        readable: string -> bool, audio: string -> AudioData)
  {
    && parsed.Ok?
    && (parsed.value.Play? ==>
          var path := Resolve(dir, parsed.value.file);
          readable(path) && audio(path) == Accepted && (parsed.value.command == 'm' || parsed.value.command == 'c'))
  }

  /**
   * A line whose file the loader goes on to read: a readable file under a
   * known command, and for `m` a name new to a MIDI loader that exists or
   * can be created.
   */
  predicate ReachesLoad(parsed: Result<SoundCommand, LineError>, reg: Registry, dir: Option<string>,
                        readable: string -> bool, midiAvailable: bool)
  {
    && parsed.Ok? && parsed.value.Play?
    && var path := Resolve(dir, parsed.value.file);
       && readable(path)
       && match parsed.value.command
          case 'c' => true
          case 'm' => if reg.midiNames.Some? then FileIndex(path) !in reg.midiNames.value else midiAvailable
          case _ => false
  }

  /** An `m` line. */
  predicate IsMidiLine(parsed: Result<SoundCommand, LineError>)
  {
    parsed.Ok? && parsed.value.Play? && parsed.value.command == 'm'
  }

  /** Every MIDI sound is bound to a name its loader knows. */
  predicate MidiBound(reg: Registry)
  {
    forall k | k in reg.sounds && reg.sounds[k] == MidiKind :: reg.midiNames.Some? && k in reg.midiNames.value
  }

  /**
   * What one line does, whatever it is: a line that goes through is one
   * that passes and binds its name; no line unbinds a name; the MIDI loader,
   * once it exists, keeps every name; and MIDI sounds stay bound only to
   * names the loader knows.
   */
  lemma StepEffect(parsed: Result<SoundCommand, LineError>, reg: Registry, dir: Option<string>,
                   readable: string -> bool, audio: string -> AudioData, midiAvailable: bool)
    requires MidiBound(reg)
    ensures var (outcome, next) := SoundStep(parsed, reg, dir, readable, audio, midiAvailable);
      && (outcome.Threw? <==> ReachesLoad(parsed, reg, dir, readable, midiAvailable)
                              && audio(Resolve(dir, parsed.value.file)) == Failed)
      && (outcome.Done? <==> SoundPasses(parsed, dir, readable, audio)
                             && (IsMidiLine(parsed) && reg.midiNames.Some? ==> LineName(parsed, dir).value !in reg.midiNames.value)
                             && (IsMidiLine(parsed) && reg.midiNames.None? ==> midiAvailable))
      && next.sounds.Keys == (if outcome.Done? && LineName(parsed, dir).Some? then reg.sounds.Keys + {LineName(parsed, dir).value}
                              else reg.sounds.Keys)
      && (reg.midiNames.Some? ==> next.midiNames.Some? && reg.midiNames.value <= next.midiNames.value)
      && (outcome.Done? && IsMidiLine(parsed) ==> next.midiNames.Some? && LineName(parsed, dir).value in next.midiNames.value)
      && MidiBound(next)
  {
    match parsed
    case Err(_) =>
    case Ok(Skip) =>
    case Ok(Play(command, file)) =>
      var path := Resolve(dir, file);
      if readable(path) && command == 'm' {
        assert LineName(parsed, dir) == Some(FileIndex(path));
      } else if readable(path) && command == 'c' {
        assert LineName(parsed, dir) == Some(FileIndex(path));
      }
  }

  /* ---------- a whole configuration ---------- */

  /**
   * Reading parsed lines, `done` lines having been read already: how it
   * ends and what the registry then is. Reading stops at the first line
   * rejected; what that line did before it failed (a MIDI loader created,
   * a MIDI name taken) stays done.
   */
  function SoundRun(parsed: seq<Result<SoundCommand, LineError>>, texts: seq<string>, done: nat, reg: Registry,
                    dir: Option<string>, readable: string -> bool, audio: string -> AudioData, midiAvailable: bool)
    : (LoadResult, Registry)
    requires |texts| == |parsed|
    decreases |parsed|
  {
    if parsed == [] then (Loaded, reg)
    else
      var (outcome, next) := SoundStep(parsed[0], reg, dir, readable, audio, midiAvailable);
      if outcome.Done? then SoundRun(parsed[1..], texts[1..], done + 1, next, dir, readable, audio, midiAvailable)
      else (Stopped(outcome, done + 1, texts[0]), next)
  }

  /** How a line that does not go through ends the reading: rejected, or crashed. */
  function Stopped(outcome: LineOutcome, lineNumber: nat, text: string): (r: LoadResult)
    requires !outcome.Done?
    ensures r.BadLine? <==> outcome.Rejected?
    ensures r.BadLine? ==> r == BadLine(lineNumber, text, outcome.error)
    ensures r.Crashed? <==> outcome.Threw?
    ensures r.Crashed? ==> r.lineNumber == lineNumber
  {
    if outcome.Rejected? then BadLine(lineNumber, text, outcome.error) else Crashed(lineNumber)
  }

  /** The names the lines going through bind, in any order. */
  function LineNames(parsed: seq<Result<SoundCommand, LineError>>, dir: Option<string>): set<string>
    decreases |parsed|
  {
    if parsed == [] then {}
    else
      (if LineName(parsed[0], dir).Some? then {LineName(parsed[0], dir).value} else {}) + LineNames(parsed[1..], dir)
  }

  /** SoundRun from line `i` on takes one step. */
  lemma SoundRunAt(parsed: seq<Result<SoundCommand, LineError>>, texts: seq<string>, i: nat, reg: Registry,
                   dir: Option<string>, readable: string -> bool, audio: string -> AudioData, midiAvailable: bool)
    requires |texts| == |parsed| && i < |parsed|
    ensures SoundRun(parsed[i..], texts[i..], i, reg, dir, readable, audio, midiAvailable) ==
      var (outcome, next) := SoundStep(parsed[i], reg, dir, readable, audio, midiAvailable);
      if outcome.Done? then SoundRun(parsed[i + 1..], texts[i + 1..], i + 1, next, dir, readable, audio, midiAvailable)
      else (Stopped(outcome, i + 1, texts[i]), next)
  {
    assert parsed[i..][1..] == parsed[i + 1..] && texts[i..][1..] == texts[i + 1..];
  }

  /**
   * Reading never unbinds a name, never gives up the MIDI loader or a name
   * it knows, and keeps every MIDI sound bound to a name the loader knows.
   */
  lemma {:induction false} SoundRunKeeps(parsed: seq<Result<SoundCommand, LineError>>, texts: seq<string>, done: nat,
                                         reg: Registry, dir: Option<string>, readable: string -> bool,
                                         audio: string -> AudioData, midiAvailable: bool)
    requires |texts| == |parsed| && MidiBound(reg)
    ensures var next := SoundRun(parsed, texts, done, reg, dir, readable, audio, midiAvailable).1;
      && reg.sounds.Keys <= next.sounds.Keys
      && (reg.midiNames.Some? ==> next.midiNames.Some? && reg.midiNames.value <= next.midiNames.value)
      && MidiBound(next)
    decreases |parsed|
  {
    if parsed != [] {
      StepEffect(parsed[0], reg, dir, readable, audio, midiAvailable);
      var next := SoundStep(parsed[0], reg, dir, readable, audio, midiAvailable).1;
      SoundRunKeeps(parsed[1..], texts[1..], done + 1, next, dir, readable, audio, midiAvailable);
    }
  }

  /**
   * A configuration read to the end: every line passed, and the names bound
   * afterwards are the ones bound before together with those the lines name.
   */
  lemma {:induction false} SoundRunLoaded(parsed: seq<Result<SoundCommand, LineError>>, texts: seq<string>, done: nat,
                                          reg: Registry, dir: Option<string>, readable: string -> bool,
                                          audio: string -> AudioData, midiAvailable: bool)
    requires |texts| == |parsed| && MidiBound(reg)
    requires SoundRun(parsed, texts, done, reg, dir, readable, audio, midiAvailable).0.Loaded?
    ensures forall i | 0 <= i < |parsed| :: SoundPasses(parsed[i], dir, readable, audio)
    ensures SoundRun(parsed, texts, done, reg, dir, readable, audio, midiAvailable).1.sounds.Keys
         == reg.sounds.Keys + LineNames(parsed, dir)
    decreases |parsed|
  {
    if parsed != [] {
      StepEffect(parsed[0], reg, dir, readable, audio, midiAvailable);
      var next := SoundStep(parsed[0], reg, dir, readable, audio, midiAvailable).1;
      SoundRunLoaded(parsed[1..], texts[1..], done + 1, next, dir, readable, audio, midiAvailable);
      assert forall i | 1 <= i < |parsed| :: parsed[i] == parsed[1..][i - 1];
    }
  }

  /**
   * A configuration read to the end names every MIDI file once: the MIDI
   * loader refuses a second holder for a name, so two `m` lines for the
   * same stem, or one for a stem the loader knew before, stop reading.
   */
  lemma {:induction false} SoundRunMidiOnce(parsed: seq<Result<SoundCommand, LineError>>, texts: seq<string>, done: nat,
                                            reg: Registry, dir: Option<string>, readable: string -> bool,
                                            audio: string -> AudioData, midiAvailable: bool)
    requires |texts| == |parsed| && MidiBound(reg)
    requires SoundRun(parsed, texts, done, reg, dir, readable, audio, midiAvailable).0.Loaded?
    ensures forall i | 0 <= i < |parsed| && IsMidiLine(parsed[i]) && reg.midiNames.Some? ::
      LineName(parsed[i], dir).value !in reg.midiNames.value
    ensures forall i, j | 0 <= i < j < |parsed| && IsMidiLine(parsed[i]) && IsMidiLine(parsed[j]) ::
      LineName(parsed[i], dir) != LineName(parsed[j], dir)
    decreases |parsed|
  {
    if parsed != [] {
      StepEffect(parsed[0], reg, dir, readable, audio, midiAvailable);
      var next := SoundStep(parsed[0], reg, dir, readable, audio, midiAvailable).1;
      SoundRunMidiOnce(parsed[1..], texts[1..], done + 1, next, dir, readable, audio, midiAvailable);
      assert forall i | 1 <= i < |parsed| :: parsed[i] == parsed[1..][i - 1];
    }
  }

  /**
   * A configuration not read to the end stopped at one line, every line
   * before it passed, and that line was either rejected, with its number
   * and trimmed text, or read a file whose loading failed in a way the
   * reader does not catch.
   */
  lemma {:induction false} SoundRunStops(parsed: seq<Result<SoundCommand, LineError>>, texts: seq<string>, done: nat,
                                         reg: Registry, dir: Option<string>, readable: string -> bool,
                                         audio: string -> AudioData, midiAvailable: bool)
    requires |texts| == |parsed| && MidiBound(reg)
    requires !SoundRun(parsed, texts, done, reg, dir, readable, audio, midiAvailable).0.Loaded?
    ensures var r := SoundRun(parsed, texts, done, reg, dir, readable, audio, midiAvailable).0;
      && (r.BadLine? || r.Crashed?)
      && done < r.lineNumber <= done + |parsed|
      && (r.BadLine? ==> r.line == texts[r.lineNumber - done - 1])
      && (r.Crashed? ==>
            var p := parsed[r.lineNumber - done - 1];
            p.Ok? && p.value.Play? && audio(Resolve(dir, p.value.file)) == Failed)
      && forall i | 0 <= i < r.lineNumber - done - 1 :: SoundPasses(parsed[i], dir, readable, audio)
    decreases |parsed|
  {
    StepEffect(parsed[0], reg, dir, readable, audio, midiAvailable);
    var (outcome, next) := SoundStep(parsed[0], reg, dir, readable, audio, midiAvailable);
    if outcome.Done? {
      var r := SoundRun(parsed[1..], texts[1..], done + 1, next, dir, readable, audio, midiAvailable).0;
      assert SoundRun(parsed, texts, done, reg, dir, readable, audio, midiAvailable).0 == r;
      SoundRunStops(parsed[1..], texts[1..], done + 1, next, dir, readable, audio, midiAvailable);
      var j := r.lineNumber - done - 1;
      assert parsed[j] == parsed[1..][j - 1] && texts[j] == texts[1..][j - 1];
      forall i | 0 <= i < j
        ensures SoundPasses(parsed[i], dir, readable, audio)
      {
        if i > 0 {
          assert parsed[i] == parsed[1..][i - 1];
        }
      }
    } else {
      assert SoundRun(parsed, texts, done, reg, dir, readable, audio, midiAvailable).0 == Stopped(outcome, done + 1, texts[0]);
    }
  }

  /* ---------- the loader ---------- */

  /** A sound holder of either kind. */
  datatype SoundRef = ClipSound(clip: ClipSoundHolder) | MidiSound(midi: MidiSoundHolder)
  {
    function Kind(): SoundKind { if ClipSound? then ClipKind else MidiKind }

    function Holder(): object { if ClipSound? then clip else midi }
  }

  /** The kinds of the holders a map binds. */
  function Kinds(m: map<string, SoundRef>): (r: map<string, SoundKind>)
  {
    map k | k in m :: m[k].Kind()
  }

  lemma KindsUpdate(m: map<string, SoundRef>, name: string, s: SoundRef)
    ensures Kinds(m[name := s]) == Kinds(m)[name := s.Kind()]
  {
    assert Kinds(m[name := s]).Keys == Kinds(m)[name := s.Kind()].Keys;
  }

  /** Every name bound anew or rebound since the earlier state holds a holder allocated since then. */
  twostate predicate FreshBindings(m0: map<string, SoundRef>, new m: map<string, SoundRef>)
  {
    forall k | k in m && (k !in m0 || m[k] != m0[k]) :: fresh(m[k].Holder())
  }

  class SoundLoader {
    var soundMap: map<string, SoundRef>
    /** Null until an `m` line needs it. */
    var midi: MidiLoader?

    /**
     * Every MIDI sound is the holder the one MIDI loader bound to that name,
     * and plays through that loader.
     */
    ghost predicate Valid()
      reads this, midi, if midi == null then {} else {midi.currentMidi}
    {
      && (midi != null ==> midi.Valid())
      && forall k | k in soundMap && soundMap[k].MidiSound? ::
           && midi != null && soundMap[k].midi.loader == midi
           && k in midi.midisMap && midi.midisMap[k] == soundMap[k].midi
    }

    /** The registry as the line semantics sees it. */
    ghost function Abstract(): Registry
      reads this, midi
    {
      Registry(Kinds(soundMap), if midi == null then None else Some(midi.midisMap.Keys))
    }

    /** The loader of a valid registry binds MIDI sounds only to names it knows. */
    lemma ValidBound()
      requires Valid()
      ensures MidiBound(Abstract())
    {
      forall k | k in Abstract().sounds && Abstract().sounds[k] == MidiKind
        ensures midi != null && k in midi.midisMap
      {
        assert soundMap[k].MidiSound?;
      }
    }

    /** An empty registry without a MIDI loader. */
    constructor ()
      ensures Valid() && soundMap == map[] && midi == null
    {
      soundMap := map[];
      midi := null;
    }

    /**
     * The `c` case: a new clip holder loads the file and is bound to `name`,
     * replacing any holder bound to it; data that fails to load binds nothing.
     */
    method LoadClip(path: string, name: string, data: AudioData) returns (r: LineOutcome)
      requires Valid()
      modifies this`soundMap
      ensures Valid()
      ensures (r, Abstract()) == ClipStep(name, data, old(Abstract()))
      ensures r.Done? ==>
        && name in soundMap && soundMap == old(soundMap)[name := soundMap[name]]
        && soundMap[name].ClipSound? && fresh(soundMap[name].clip) && fresh(soundMap[name].clip.base)
        && soundMap[name].clip.base.Initial() && soundMap[name].clip.clip == Some(Clip(0, false))
      ensures !r.Done? ==> soundMap == old(soundMap)
    {
      var s := new ClipSoundHolder();
      var loaded := s.LoadFile(data);
      if loaded.Fail? {
        // only UnsupportedAudioFileException is caught
        return if loaded.error == UnsupportedAudioFile then Rejected(AudioLoadFailed) else Threw;
      }
      KindsUpdate(soundMap, name, ClipSound(s));
      soundMap := soundMap[name := ClipSound(s)];
      return Done;
    }

    /**
     * The `m` case: the MIDI loader, created when there is none, hands out
     * a holder for `name` unless the name is taken; the holder loads the
     * file and is bound to `name`. Nothing else of the loader changes.
     */
    method LoadMidi(path: string, name: string, data: AudioData, midiAvailable: bool) returns (r: LineOutcome)
      requires Valid()
      modifies this`soundMap, this`midi, (if midi == null then {} else {midi})`midisMap
      ensures Valid()
      ensures (r, Abstract()) == MidiStep(name, data, old(Abstract()), midiAvailable)
      ensures old(midi) != null ==> midi == old(midi)
      ensures old(midi) == null && midi != null ==> fresh(midi)
      ensures r.Done? ==>
        && name in soundMap && soundMap == old(soundMap)[name := soundMap[name]]
        && soundMap[name].MidiSound? && fresh(soundMap[name].midi) && fresh(soundMap[name].midi.base)
        && soundMap[name].midi.base.Initial() && soundMap[name].midi.sequence == Some(path)
      ensures !r.Done? ==> soundMap == old(soundMap)
    {
      ghost var names := if midi == null then {} else midi.midisMap.Keys;
      if midi == null {
        if !midiAvailable {
          return Rejected(MidiUnavailable);
        }
        midi := new MidiLoader();
      }
      var got := midi.GetMidiHolder(name);
      if got.Err? {
        return Rejected(LineError.KeyAlreadyExists(name));
      }
      var h := got.value;
      assert midi.midisMap.Keys == names + {name};
      var loaded := h.LoadFile(path, data);
      if loaded.Fail? {
        return if loaded.error == UnsupportedAudioFile then Rejected(AudioLoadFailed) else Threw;
      }
      ghost var before := Abstract();
      KindsUpdate(soundMap, name, MidiSound(h));
      soundMap := soundMap[name := MidiSound(h)];
      assert Abstract().sounds == before.sounds[name := MidiKind];
      assert Abstract().midiNames == before.midiNames;
      return Done;
    }

    /**
     * One parsed line of loadSoundsFromConfig: the registry changes as
     * SoundStep says, the MIDI loader is only ever created, never replaced,
     * and every holder bound anew is a fresh one.
     */
    method LoadSound(parsed: Result<SoundCommand, LineError>, dir: Option<string>, readable: string -> bool,
                     audio: string -> AudioData, midiAvailable: bool) returns (r: LineOutcome)
      requires Valid()
      modifies this`soundMap, this`midi, (if midi == null then {} else {midi})`midisMap
      ensures Valid()
      ensures (r, Abstract()) == SoundStep(parsed, old(Abstract()), dir, readable, audio, midiAvailable)
      ensures old(midi) != null ==> midi == old(midi)
      ensures old(midi) == null && midi != null ==> fresh(midi)
      ensures FreshBindings(old(soundMap), soundMap)
    {
      match parsed
      case Err(e) =>
        return Rejected(e);
      case Ok(Skip) =>
        return Done;
      case Ok(Play(command, file)) =>
        var path := Resolve(dir, file);
        if !readable(path) {
          return Rejected(SoundUnreadable);
        }
        if command == 'm' {
          r := LoadMidi(path, FileIndex(path), audio(path), midiAvailable);
        } else if command == 'c' {
          r := LoadClip(path, FileIndex(path), audio(path));
        } else {
          return Rejected(UnknownSoundCommand);
        }
    }

    /**
     * loadSoundsFromConfig: every line trimmed and parsed, then loaded in
     * order by LoadLines, which stops at the first one that does not go
     * through, as SoundRun says. The MIDI loader is created at most once
     * and every holder bound anew is a fresh one.
     */
    method LoadSoundsFromConfig(lines: seq<string>, dir: Option<string>, readable: string -> bool,
                                audio: string -> AudioData, midiAvailable: bool) returns (r: LoadResult)
      requires Valid()
      modifies this`soundMap, this`midi, (if midi == null then {} else {midi})`midisMap
      ensures Valid()
      ensures (r, Abstract()) == SoundRun(ParseSounds(lines), TrimAll(lines), 0, old(Abstract()), dir, readable, audio, midiAvailable)
      ensures old(midi) != null ==> midi == old(midi)
      ensures old(midi) == null && midi != null ==> fresh(midi)
      ensures FreshBindings(old(soundMap), soundMap)
    {
      r := LoadLines(ParseSounds(lines), TrimAll(lines), dir, readable, audio, midiAvailable);
    }

    /**
     * The reading loop of loadSoundsFromConfig over the lines, trimmed
     * (`texts`) and parsed (`parsed`): each is loaded in turn until one is
     * rejected or throws. The registry ends as SoundRun says, and the
     * loader keeps Valid throughout.
     */
    method LoadLines(parsed: seq<Result<SoundCommand, LineError>>, texts: seq<string>, dir: Option<string>,
                     readable: string -> bool, audio: string -> AudioData, midiAvailable: bool) returns (r: LoadResult)
      requires |texts| == |parsed| && Valid()
      modifies this`soundMap, this`midi, (if midi == null then {} else {midi})`midisMap
      ensures Valid()
      ensures (r, Abstract()) == SoundRun(parsed, texts, 0, old(Abstract()), dir, readable, audio, midiAvailable)
      ensures old(midi) != null ==> midi == old(midi)
      ensures old(midi) == null && midi != null ==> fresh(midi)
      ensures FreshBindings(old(soundMap), soundMap)
    {
      ghost var run := SoundRun(parsed, texts, 0, Abstract(), dir, readable, audio, midiAvailable);
      var i := 0;
      while i < |parsed|
        invariant 0 <= i <= |parsed| && Valid()
        invariant run == SoundRun(parsed[i..], texts[i..], i, Abstract(), dir, readable, audio, midiAvailable)
        invariant old(midi) != null ==> midi == old(midi)
        invariant old(midi) == null && midi != null ==> fresh(midi)
        invariant FreshBindings(old(soundMap), soundMap)
      {
        SoundRunAt(parsed, texts, i, Abstract(), dir, readable, audio, midiAvailable);
        var outcome := LoadSound(parsed[i], dir, readable, audio, midiAvailable);
        if !outcome.Done? {
          return Stopped(outcome, i + 1, texts[i]);
        }
        i := i + 1;
      }
      r := Loaded;
    }

    /* ---------- lookups ---------- */

    /** getHolder: the holder bound to `name`, or nothing (Java's null). */
    function GetHolder(name: string): (r: Option<SoundRef>)
      reads this
      ensures r.Some? <==> IsLoaded(name)
      ensures r.Some? ==> r.value == soundMap[name]
    {
      if name in soundMap then Some(soundMap[name]) else None
    }

    /** isLoaded. */
    predicate IsLoaded(name: string)
      reads this
    {
      name in soundMap
    }
  }
}
