/**
 * Concrete runs that show where the code departs from what its
 * documentation and names promise, each beside the same run of the
 * corrected operation, and runs over inputs the documentation does not
 * mention. Every scenario builds its own objects, so nothing outside it
 * changes.
 */
module Scenarios {
  import opened Wrappers
  import opened Images
  import opened ConfigText
  import opened ImageLoading
  import opened Sound
  import opened Midi

  /* ---------- ImageAnimator.setRepeating ---------- */

  /** Asking a new animator not to repeat leaves it repeating. */
  method RepeatingCannotBeDisabled() returns (repeating: bool)
    ensures repeating
  {
    var holder := new ImageHolder();
    var animator := holder.GetAnimator(40);
    animator.SetRepeating(false);
    repeating := animator.isRepeating;
  }

  /** The documented operation switches repeating off again. */
  method RepeatingDisabled() returns (repeating: bool)
    ensures !repeating
  {
    var holder := new ImageHolder();
    var animator := holder.GetAnimator(40);
    animator.SetRepeatingAsDocumented(true);
    animator.SetRepeatingAsDocumented(false);
    repeating := animator.isRepeating;
  }

  /* ---------- GroupImageAnimator.setCurrentImage ---------- */

  /** A group of three frames named a, b and c, animated every 10 ms. */
  method ThreeFrameGroup() returns (animator: ImageAnimator)
    ensures fresh(animator) && fresh(animator.source)
    ensures animator.Valid() && animator.source.Valid() && animator.source.isGroup && !animator.destroyed
    ensures animator.source.imageNames == ["a", "b", "c"] && |animator.source.images| == 3
    ensures animator.tickPeriod == 10 && animator.animationTime == 0 && animator.currentImage == 0
  {
    var group := new ImageHolder.Group(file => file);
    group.AddImage(Some("a"), Picture(0));
    group.AddImage(Some("b"), Picture(1));
    group.AddImage(Some("c"), Picture(2));
    animator := group.GetGroupAnimator(10);
  }

  /**
   * Jumping to the last frame, c, and letting the timer tick once shows b:
   * the tick goes on from the old animation time, not from c.
   */
  method JumpThenTick() returns (shown: int)
    ensures shown == 1
  {
    var animator := ThreeFrameGroup();
    var jumped := animator.SetCurrentImage("c");
    animator.Tick();
    shown := animator.currentImage;
  }

  /** With the animation time moved along, the tick after c shows a, the frame after c. */
  method JumpSyncedThenTick() returns (shown: int)
    ensures shown == 0
  {
    var animator := ThreeFrameGroup();
    var jumped := animator.SetCurrentImageSynced("c");
    animator.Tick();
    shown := animator.currentImage;
  }

  /* ---------- MidiSoundHolder.play ---------- */

  /** A loader with two loaded MIDI holders, neither playing. */
  method TwoMidis() returns (loader: MidiLoader, first: MidiSoundHolder, second: MidiSoundHolder)
    ensures fresh(loader) && fresh(first) && fresh(second) && fresh(first.base) && fresh(second.base)
    ensures first != second && first.base != second.base
    ensures loader.Valid() && loader.open && loader.currentMidi == null
    ensures first.loader == loader && second.loader == loader
    ensures first.sequence.Some? && second.sequence.Some?
    ensures first.base.state == Finished && second.base.state == Finished
  {
    loader := new MidiLoader();
    var a := loader.GetMidiHolder("intro");
    var b := loader.GetMidiHolder("theme");
    assert a.Ok? && b.Ok?;
    first, second := a.value, b.value;
    var loadedFirst := first.LoadFile("intro.mid", Accepted);
    var loadedSecond := second.LoadFile("theme.mid", Accepted);
  }

  /** While one MIDI plays, playing another ends in a null dereference. */
  method PlayWhileAnotherPlays() returns (firstPlay: PlayOutcome, secondPlay: PlayOutcome)
    ensures firstPlay == Returned && secondPlay == NullPointer
  {
    var loader, first, second := TwoMidis();
    firstPlay := first.Play(true);
    secondPlay := second.Play(true);
  }

  /** With a denied request taken as "do nothing", the first MIDI keeps the sequencer and the second stays silent. */
  method PlayWhenFreeWhileAnotherPlays() returns (firstHolds: bool, secondPlays: bool)
    ensures firstHolds && !secondPlays
  {
    var loader, first, second := TwoMidis();
    var firstPlay := first.PlayWhenFree(true);
    var secondPlay := second.PlayWhenFree(true);
    firstHolds := loader.currentMidi == first;
    secondPlays := second.base.state == Playing;
  }

  /**
   * A sequence the sequencer refuses leaves its holder holding the
   * sequencer without playing, so the next holder's play dereferences null.
   */
  method RefusedSequenceKeepsSequencer() returns (firstPlay: PlayOutcome, secondPlay: PlayOutcome, firstHolds: bool)
    ensures firstPlay == InvalidAudioData && secondPlay == NullPointer && firstHolds
  {
    var loader, first, second := TwoMidis();
    firstPlay := first.Play(false);
    secondPlay := second.Play(true);
    firstHolds := loader.currentMidi == first;
  }

  /* ---------- ImageLoader, files no reader recognises ---------- */

  /** An `o` line over such a file registers a holder whose one frame is null. */
  method NullFrameRegistered() returns (r: LineOutcome, first: Result<Image, ImageError>)
    ensures r == Done && first == Ok(NullImage)
  {
    var loader := new ImageLoader(file => file);
    r := loader.LoadSingle("notes.txt", None, _ => true, _ => Some(NullImage));
    first := loader.GetImage(FileIndex("notes.txt"));
  }

  /** The same file as a strip throws, whatever the frame count. */
  method NullStripThrows() returns (r: LineOutcome)
    ensures r == Threw
  {
    var loader := new ImageLoader(file => file);
    r := loader.LoadStripLine("notes.txt", 4, None, _ => true, _ => Some(NullImage));
  }

  /* ---------- ImageLoader, `s` lines ---------- */

  /** A readable strip of four frames throws instead of loading. */
  method StripLineThrows() returns (r: LineOutcome)
    ensures r == Threw
  {
    var loader := new ImageLoader(file => file);
    r := loader.LoadStripLine("strip.png", 4, None, _ => true, _ => Some(Picture(7)));
  }

  /** Loading the strip's frames without file names registers a holder with all four. */
  method StripFramesLoad() returns (registered: bool, frames: int)
    ensures registered && frames == 4
  {
    var loader := new ImageLoader(file => file);
    var holder := new ImageHolder();
    var r := loader.LoadFrames("strip", StripFrames(Picture(7), 4), holder);
    registered := loader.IsLoaded("strip");
    frames := |holder.images|;
  }
}
