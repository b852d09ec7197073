/**
 * Frame containers and the timer-driven animator over them
 * (package javax.media.utils.loaders.images: ImageHolder, GroupImageHolder,
 * ImageAnimator, GroupImageAnimator).
 *
 * Java subclassing has no counterpart among Dafny classes: a group holder is
 * an ImageHolder whose `isGroup` flag is set and which keeps a name for every
 * frame, and a group animator is an ImageAnimator over a group holder.
 */
module Images {
  import opened Wrappers
  import opened Watchers
  import opened FrameClock

  /**
   * A frame reference: a decoded BufferedImage, whose pixels are opaque
   * here, or Java's null, which ImageIO.read returns for a file no
   * installed reader recognises and which a holder stores like any frame.
   */
  datatype Image = NullImage | Picture(id: nat)

  /** The exception a failed by-name lookup throws. */
  datatype ImageError = NoSuchElement(name: string) | IndexOutOfBounds(index: int)

  /** java.util.List.indexOf: the first position of `x` in `s`, or -1. */
  function IndexOf(s: seq<string>, x: string): (i: int)
    ensures i == -1 <==> x !in s
    ensures i != -1 ==> 0 <= i < |s| && s[i] == x && x !in s[..i]
  {
    if s == [] then -1
    else if s[0] == x then 0
    else
      var j := IndexOf(s[1..], x);
      if j == -1 then -1
      else
        assert s[..j + 1] == [s[0]] + s[1..][..j];
        j + 1
  }

  /** An append-only list of frames; a group holder also names each frame. */
  class ImageHolder {
    /** Set for a GroupImageHolder. */
    const isGroup: bool
    /**
     * Derives a frame's name from its file (ImageLoader.getResourceIndex,
     * which the group holder calls); left uninterpreted.
     */
    const resourceIndex: string -> string
    var images: seq<Image>
    /** Parallel to `images` in a group holder, empty otherwise. */
    var imageNames: seq<string>

    ghost predicate Valid()
      reads this
    {
      if isGroup then |imageNames| == |images| else imageNames == []
    }

    /** new ImageHolder(): no frames. */
    constructor ()
      ensures Valid() && !isGroup && images == [] && imageNames == []
    {
      isGroup := false;
      resourceIndex := (file: string) => file;
      images := [];
      imageNames := [];
    }

    /** new GroupImageHolder(): no frames, no names. */
    constructor Group(resourceIndex: string -> string)
      ensures Valid() && isGroup && this.resourceIndex == resourceIndex
      ensures images == [] && imageNames == []
    {
      isGroup := true;
      this.resourceIndex := resourceIndex;
      images := [];
      imageNames := [];
    }

    /**
     * Appends a frame. A plain holder ignores the file; a group holder drops a
     * frame without a file and otherwise records the name derived from it.
     */
    method AddImage(imageFile: Option<string>, image: Image)
      modifies this`images, this`imageNames
      ensures Appended(imageFile, image)
      ensures old(Valid()) ==> Valid()
    {
      if isGroup {
        if imageFile.None? {
          return;
        }
        images := images + [image];
        imageNames := imageNames + [resourceIndex(imageFile.value)];
      } else {
        images := images + [image];
      }
    }

    /** The frame lists are those of the previous state with `image` added as AddImage adds it. */
    twostate predicate Appended(imageFile: Option<string>, image: Image)
      reads this
    {
      && images == (if !isGroup || imageFile.Some? then old(images) + [image] else old(images))
      && imageNames ==
           (if isGroup && imageFile.Some? then old(imageNames) + [resourceIndex(imageFile.value)]
            else old(imageNames))
    }

    function CountImages(): nat
      reads this
    {
      |images|
    }

    /** getImage: the i-th frame added, or IndexOutOfBounds outside the range. */
    function GetImage(i: int): (r: Result<Image, ImageError>)
      reads this
      ensures r.Ok? <==> 0 <= i < |images|
      ensures r.Ok? ==> r.value == images[i] && r.value in images
      ensures r.Err? ==> r.error == IndexOutOfBounds(i)
    {
      if 0 <= i < |images| then Ok(images[i]) else Err(IndexOutOfBounds(i))
    }

    /** Position of the first frame with this name, or -1. */
    function GetIndexOf(name: string): (i: int)
      reads this
      requires isGroup
      ensures i == -1 <==> name !in imageNames
      ensures i != -1 ==> 0 <= i < |imageNames| && imageNames[i] == name && name !in imageNames[..i]
    {
      IndexOf(imageNames, name)
    }

    /** The frame named `name` (the first one, if several share it), or null. */
    function GetImageByName(name: string): (r: Option<Image>)
      reads this
      requires Valid() && isGroup
      ensures r.None? <==> name !in imageNames
      ensures r.Some? ==> exists i | 0 <= i < |images| :: imageNames[i] == name && name !in imageNames[..i] && r.value == images[i]
    {
      if name !in imageNames then None
      else Some(images[IndexOf(imageNames, name)])
    }

    /**
     * The name of the i-th frame; looking that name up again finds the first
     * frame carrying it, which is `i` itself unless an earlier frame shares it.
     */
    function GetImageName(i: int): (r: Result<string, ImageError>)
      reads this
      requires isGroup
      ensures r.Ok? <==> 0 <= i < |imageNames|
      ensures r.Err? ==> r.error == IndexOutOfBounds(i)
      ensures r.Ok? ==> 0 <= GetIndexOf(r.value) <= i
      ensures r.Ok? ==> (GetIndexOf(r.value) == i <==> r.value !in imageNames[..i])
    {
      if 0 <= i < |imageNames| then Ok(imageNames[i]) else Err(IndexOutOfBounds(i))
    }

    /** getAnimator: a new, stopped animator over this holder. */
    method GetAnimator(tickrate: int) returns (a: ImageAnimator)
      ensures fresh(a) && a.source == this && a.Valid() && a.Initial(tickrate)
    {
      a := new ImageAnimator(this, tickrate);
    }

    /** getGroupAnimator: a new, stopped animator over this group. */
    method GetGroupAnimator(tickrate: int) returns (a: ImageAnimator)
      requires isGroup
      ensures fresh(a) && a.source == this && a.Valid() && a.Initial(tickrate)
    {
      a := new ImageAnimator.Grouped(this, tickrate);
    }
  }

  /**
   * Steps through a holder's frames on every timer tick. The Swing timer is
   * reduced to whether it runs; the tick is the method Tick.
   */
  class ImageAnimator {
    const source: ImageHolder
    /** Time between ticks, ms. */
    var tickPeriod: int
    /** How long the animation has run, ms, modulo a full cycle. */
    var animationTime: int
    var currentImage: int
    var isRepeating: bool
    /** Whether the driving timer runs. */
    var running: bool
    var watchers: set<Watcher>
    /** Callbacks delivered to watchers so far, oldest first. */
    var notices: seq<Notice>
    /** Set by destroy(), after which the timer and the watcher set are gone. */
    var destroyed: bool

    ghost predicate Valid()
      reads this
    {
      tickPeriod >= 0 && animationTime >= 0 && currentImage >= 0
    }

    /** The state a new animator is in, for a requested tick rate. */
    ghost predicate Initial(tickrate: int)
      reads this
    {
      && tickPeriod == (if tickrate >= 0 then tickrate else 0)
      && animationTime == 0 && currentImage == 0
      && !isRepeating && !running && !destroyed
      && watchers == {} && notices == []
    }

    constructor (source: ImageHolder, tickrate: int)
      ensures this.source == source && Valid() && Initial(tickrate)
    {
      this.source := source;
      tickPeriod := if tickrate >= 0 then tickrate else 0;
      animationTime := 0;
      currentImage := 0;
      isRepeating := false;
      running := false;
      watchers := {};
      notices := [];
      destroyed := false;
    }

    /** new GroupImageAnimator(group, tickrate). */
    constructor Grouped(group: ImageHolder, tickrate: int)
      requires group.isGroup
      ensures source == group && Valid() && Initial(tickrate)
    {
      source := group;
      tickPeriod := if tickrate >= 0 then tickrate else 0;
      animationTime := 0;
      currentImage := 0;
      isRepeating := false;
      running := false;
      watchers := {};
      notices := [];
      destroyed := false;
    }

    /** The animation shows its last frame. */
    predicate AtLastFrame()
      reads this, source
    {
      currentImage == |source.images| - 1
    }

    /** At the last frame and not going to repeat. */
    predicate FinishedLooping()
      reads this, source
    {
      AtLastFrame() && !isRepeating
    }

    predicate IsStopped()
      reads this
    {
      !running
    }

    function GetCurrentPosition(): int
      reads this
    {
      currentImage
    }

    /** getCurrentImage: the frame on show; before any frame is added, IndexOutOfBounds. */
    function GetCurrentImage(): (r: Result<Image, ImageError>)
      reads this, source
      ensures r.Ok? <==> 0 <= currentImage < |source.images|
      ensures r.Ok? ==> r.value == source.images[currentImage]
      ensures r.Err? ==> r.error == IndexOutOfBounds(currentImage)
    {
      source.GetImage(currentImage)
    }

    method AddWatcher(w: Watcher)
      requires !destroyed
      modifies this`watchers
      ensures watchers == old(watchers) + {w}
    {
      watchers := watchers + {w};
    }

    /** As written, the argument is ignored and repeating is switched on. */
    method SetRepeating(shouldRepeat: bool)
      modifies this`isRepeating
      ensures isRepeating
    {
      isRepeating := true;
    }

    /** A negative period is ignored; zero is accepted. */
    method SetAnimationPeriod(period: int)
      requires Valid() && !destroyed
      modifies this`tickPeriod
      ensures Valid()
      ensures tickPeriod == if period >= 0 then period else old(tickPeriod)
    {
      if period >= 0 {
        tickPeriod := period;
      }
    }

    /**
     * actionPerformed: one timer tick. The time advances by one period modulo
     * the cycle and selects the frame; at the last frame a non-repeating
     * animation stops and tells every watcher it ended, a repeating one tells
     * every watcher it looped.
     */
    method Tick()
      requires Valid() && !destroyed
      modifies this`animationTime, this`currentImage, this`running, this`notices
      ensures Valid()
      ensures Frame(animationTime, currentImage) == Step(old(animationTime), tickPeriod, |source.images|)
      ensures running == (old(running) && !FinishedLooping())
      ensures old(notices) <= notices
      ensures Fanout(notices[|old(notices)|..], if AtLastFrame() then watchers else {},
                     if isRepeating then SequenceLooped else SequenceEnded)
    {
      var count := |source.images|;
      if count > 1 && tickPeriod > 0 {
        animationTime := (animationTime + tickPeriod) % (tickPeriod * count);
        currentImage := animationTime / tickPeriod;
      } else {
        currentImage := 0;
      }
      ghost var before := notices;
      if currentImage == count - 1 {
        var log;
        if !isRepeating {
          running := false;
          log := Broadcast(watchers, SequenceEnded);
        } else {
          log := Broadcast(watchers, SequenceLooped);
        }
        notices := notices + log;
        assert notices[|before|..] == log;
      } else {
        assert notices[|before|..] == [];
      }
    }

    method Start()
      requires !destroyed
      modifies this`running
      ensures running
    {
      running := true;
    }

    method Stop()
      requires !destroyed
      modifies this`running
      ensures !running
    {
      running := false;
    }

    method Resume()
      requires !destroyed
      modifies this`running
      ensures running
    {
      running := true;
    }

    /**
     * Restarts at frame `position`; positions outside 1 .. count-1 (frame 0
     * included) are ignored.
     */
    method RestartAt(position: int)
      requires Valid() && !destroyed
      modifies this`currentImage, this`animationTime, this`running
      ensures Valid()
      ensures position <= 0 || position >= |source.images| ==>
        currentImage == old(currentImage) && animationTime == old(animationTime) && running == old(running)
      ensures 0 < position < |source.images| ==>
        currentImage == position && animationTime == tickPeriod * position && running
    {
      if position <= 0 || position >= |source.images| {
        return;
      }
      currentImage := position;
      animationTime := tickPeriod * position;
      running := true;
    }

    /** Stops the timer and drops the watchers; the animator must not be used again. */
    method Destroy()
      requires !destroyed
      modifies this`running, this`watchers, this`destroyed
      ensures destroyed && !running && watchers == {}
    {
      running := false;
      watchers := {};
      destroyed := true;
    }

    /** GroupImageAnimator.getCurrentImageName: the name of the frame on show, or IndexOutOfBounds. */
    function GetCurrentImageName(): (r: Result<string, ImageError>)
      reads this, source
      requires source.isGroup
      ensures r.Ok? <==> 0 <= currentImage < |source.imageNames|
      ensures r.Ok? ==> r.value == source.imageNames[currentImage]
      ensures r.Err? ==> r.error == IndexOutOfBounds(currentImage)
    {
      source.GetImageName(currentImage)
    }

    /**
     * GroupImageAnimator.setCurrentImage, as written: shows the first frame
     * with this name, or throws NoSuchElement and changes nothing. The
     * animation time is left alone.
     */
    method SetCurrentImage(name: string) returns (r: Outcome<ImageError>)
      requires Valid() && source.isGroup
      modifies this`currentImage
      ensures Valid()
      ensures name !in source.imageNames ==> r == Fail(NoSuchElement(name)) && currentImage == old(currentImage)
      ensures name in source.imageNames ==>
        && r == Pass
        && currentImage == source.GetIndexOf(name)
        && GetCurrentImageName() == Ok(name)
    {
      var index := source.GetIndexOf(name);
      if index < 0 {
        return Fail(NoSuchElement(name));
      }
      currentImage := index;
      return Pass;
    }

    /**
     * setCurrentImage as its purpose calls for: the animation time is moved to
     * the start of the named frame as well, so the next tick continues from it.
     */
    method SetCurrentImageSynced(name: string) returns (r: Outcome<ImageError>)
      requires Valid() && source.Valid() && source.isGroup
      modifies this`currentImage, this`animationTime
      ensures Valid()
      ensures name !in source.imageNames ==>
        r == Fail(NoSuchElement(name)) && currentImage == old(currentImage) && animationTime == old(animationTime)
      ensures name in source.imageNames ==>
        && r == Pass
        && currentImage == source.GetIndexOf(name)
        && GetCurrentImageName() == Ok(name)
        && var count := |source.images|;
           var next := (currentImage + 1) % count;
           Animates(tickPeriod, count) ==>
             Step(animationTime, tickPeriod, count) == Frame(tickPeriod * next, next)
    {
      var index := source.GetIndexOf(name);
      if index < 0 {
        return Fail(NoSuchElement(name));
      }
      currentImage := index;
      animationTime := tickPeriod * index;
      if Animates(tickPeriod, |source.images|) {
        StepFromAligned(index, tickPeriod, |source.images|);
      }
      return Pass;
    }

    /**
     * setRepeating as its documentation describes it: enables or disables
     * looping.
     */
    method SetRepeatingAsDocumented(shouldRepeat: bool)
      modifies this`isRepeating
      ensures isRepeating == shouldRepeat
    {
      isRepeating := shouldRepeat;
    }
  }
}
