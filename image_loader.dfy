/**
 * The image registry and its configuration reader
 * (javax.media.utils.loaders.images.ImageLoader).
 *
 * Files are named by their path strings. Whether a file exists and what
 * reading it yields are parameters: `present` stands for File.exists and
 * `decode` for ImageIO.read: None is the IOException of a file that
 * cannot be read, Some(NullImage) the null it returns for a file no reader
 * recognises. A configuration file is the sequence of its lines, and
 * `dir` is the directory it sits in (None when its path has no parent).
 */
module ImageLoading {
  import opened Wrappers
  import opened ConfigText
  import opened Images

  /* ---------- configuration lines ---------- */

  /** What a configuration line asks for once its words have been checked. */
  datatype ImageCommand =
    | Skip                                                   // blank or `//` comment
    | Single(file: string)                                   // o FILE
    | Numbered(prefix: string, suffix: string, count: nat)   // n PREFIX*SUFFIX N
    | Strip(file: string, count: nat)                        // s FILE N
    | Group(name: string, files: seq<string>)                // g NAME FILE...

  /**
   * The checks loadImagesFromConfig makes on a line before it looks at any
   * file or at the registry, in the order it makes them.
   */
  function ParseImageLine(raw: string): (r: Result<ImageCommand, LineError>)
    ensures r == Ok(Skip) <==> Trim(raw) == [] || IsComment(Trim(raw))
    ensures r.Ok? && (r.value.Single? || r.value.Strip?) ==> IsWord(r.value.file)
    ensures r.Ok? && (r.value.Numbered? || r.value.Strip?) ==> 0 < r.value.count <= INT_MAX
    ensures r.Ok? && r.value.Numbered? ==>
      && r.value.prefix != [] && r.value.suffix != []
      && Lacks(r.value.prefix, '*') && Lacks(r.value.suffix, '*')
    ensures r.Ok? && r.value.Group? ==>
      IsWord(r.value.name) && r.value.files != [] && forall i | 0 <= i < |r.value.files| :: IsWord(r.value.files[i])
  {
    var line := Trim(raw);
    if line == [] || IsComment(line) then Ok(Skip)
    else
      var args := Arguments(line);
      match ToLower(line[0])
      case 'o' =>
        if |args| != 1 then Err(NoSingleImageFile) else Ok(Single(args[0]))
      case 'n' =>
        if |args| == 0 then Err(NoPatternOrCount)
        else if |args| == 1 then Err(NoImageCount)
        else if |args| != 2 then Err(TooManySequenceOptions)
        else (
          match IntFromCommandToken(args[1])
          case Err(e) => Err(e)
          case Ok(n) =>
            match SplitPattern(args[0])
            case None => Err(NoStarInPattern)
            case Some(parts) =>
              PatternShape(args[0]);
              Ok(Numbered(parts.0, parts.1, n)))
      case 's' =>
        if |args| == 0 then Err(NoStripOrCount)
        else if |args| == 1 then Err(NoImageCount)
        else if |args| != 2 then Err(TooManyStripOptions)
        else (
          match IntFromCommandToken(args[1])
          case Err(e) => Err(e)
          case Ok(n) => Ok(Strip(args[0], n)))
      case 'g' =>
        if |args| == 0 then Err(NoGroupName)
        else if |args| == 1 then Err(NoGroupImages)
        else Ok(Group(args[0], args[1..]))
      case _ => Err(UnknownImageCommand)
  }

  /* ---------- files ---------- */

  function ResolveAll(dir: Option<string>, names: seq<string>): (r: seq<string>)
    ensures |r| == |names|
  {
    seq(|names|, i requires 0 <= i < |names| => Resolve(dir, names[i]))
  }

  /** The i-th file of a numbered sequence: prefix, i in decimal, suffix. */
  function NumberedFile(dir: Option<string>, prefix: string, suffix: string, i: nat): string
  {
    Resolve(dir, prefix + NatToDecimal(i) + suffix)
  }

  function NumberedFiles(dir: Option<string>, prefix: string, suffix: string, count: nat): (r: seq<string>)
    ensures |r| == count
  {
    seq(count, i requires 0 <= i < count => NumberedFile(dir, prefix, suffix, i))
  }

  /** The first position whose file does not exist, if there is one. */
  function FirstAbsent(files: seq<string>, present: string -> bool): (r: Option<nat>)
    ensures r.Some? ==> r.value < |files|
    decreases |files|
  {
    if files == [] then None
    else if !present(files[0]) then Some(0)
    else
      match FirstAbsent(files[1..], present)
      case None => None
      case Some(j) => Some(j + 1)
  }

  /** None exactly when every file exists; otherwise the position of a missing file with every earlier one present. */
  lemma {:induction false} FirstAbsentSpec(files: seq<string>, present: string -> bool)
    ensures FirstAbsent(files, present).None? <==> forall j | 0 <= j < |files| :: present(files[j])
    ensures FirstAbsent(files, present).Some? ==>
      var i := FirstAbsent(files, present).value;
      && !present(files[i])
      && forall j | 0 <= j < i :: present(files[j])
    decreases |files|
  {
    if files != [] && present(files[0]) {
      FirstAbsentSpec(files[1..], present);
      assert forall j | 1 <= j < |files| :: files[j] == files[1..][j - 1];
    }
  }

  /**
   * The sequence check of an `n` line: names the files one by one and
   * stops at the first that does not exist.
   */
  method SequenceFiles(dir: Option<string>, prefix: string, suffix: string, count: nat, present: string -> bool)
    returns (files: seq<string>, missing: Option<nat>)
    ensures missing == FirstAbsent(NumberedFiles(dir, prefix, suffix, count), present)
    ensures missing.None? ==> files == NumberedFiles(dir, prefix, suffix, count)
  {
    ghost var all := NumberedFiles(dir, prefix, suffix, count);
    files := [];
    var i := 0;
    while i < count
      invariant 0 <= i <= count
      invariant files == all[..i]
      invariant forall j | 0 <= j < i :: present(all[j])
    {
      var file := NumberedFile(dir, prefix, suffix, i);
      files := files + [file];
      if !present(file) {
        FirstAbsentAt(all, present, i);
        return files, Some(i);
      }
      i := i + 1;
    }
    assert files == all;
    FirstAbsentSpec(all, present);
    missing := None;
  }

  lemma FirstAbsentAt(files: seq<string>, present: string -> bool, i: nat)
    requires i < |files| && !present(files[i])
    requires forall j | 0 <= j < i :: present(files[j])
    ensures FirstAbsent(files, present) == Some(i)
  {
    FirstAbsentSpec(files, present);
    var r := FirstAbsent(files, present);
    assert r.Some?;
    assert !(r.value < i);
    assert !(r.value > i);
  }

  /**
   * The frames loadImages gets from its files, in file order: the files
   * whose reading throws an IOException are skipped, and a file no reader
   * recognises gives a null frame.
   */
  function Decoded(files: seq<string>, decode: string -> Option<Image>): (r: seq<Image>)
    ensures |r| <= |files|
    decreases |files|
  {
    if files == [] then []
    else
      var init := files[..|files| - 1];
      var last := files[|files| - 1];
      Decoded(init, decode) + (if decode(last).Some? then [decode(last).value] else [])
  }

  /** No frame comes back exactly when no file can be read. */
  lemma {:induction false} DecodedEmpty(files: seq<string>, decode: string -> Option<Image>)
    ensures Decoded(files, decode) == [] <==> forall j | 0 <= j < |files| :: decode(files[j]).None?
    decreases |files|
  {
    if files != [] {
      var init := files[..|files| - 1];
      DecodedEmpty(init, decode);
      assert forall j | 0 <= j < |init| :: init[j] == files[j];
    }
  }

  /** The names a group holder records for the same files. */
  function DecodedNames(files: seq<string>, decode: string -> Option<Image>, naming: string -> string): (r: seq<string>)
    ensures |r| == |Decoded(files, decode)|
    decreases |files|
  {
    if files == [] then []
    else
      var init := files[..|files| - 1];
      var last := files[|files| - 1];
      DecodedNames(init, decode, naming) + (if decode(last).Some? then [naming(last)] else [])
  }

  lemma DecodedStep(files: seq<string>, i: nat, decode: string -> Option<Image>, naming: string -> string)
    requires i < |files|
    ensures decode(files[i]).None? ==>
      && Decoded(files[..i + 1], decode) == Decoded(files[..i], decode)
      && DecodedNames(files[..i + 1], decode, naming) == DecodedNames(files[..i], decode, naming)
    ensures decode(files[i]).Some? ==>
      && Decoded(files[..i + 1], decode) == Decoded(files[..i], decode) + [decode(files[i]).value]
      && DecodedNames(files[..i + 1], decode, naming) == DecodedNames(files[..i], decode, naming) + [naming(files[i])]
  {
    assert files[..i + 1][..i] == files[..i];
    if decode(files[i]).None? {
      assert Decoded(files[..i + 1], decode) == Decoded(files[..i], decode) + [];
      assert DecodedNames(files[..i + 1], decode, naming) == DecodedNames(files[..i], decode, naming) + [];
    }
  }

  lemma AppendAssoc<T>(a: seq<T>, b: seq<T>, c: seq<T>)
    ensures (a + b) + c == a + (b + c)
  {
  }

  /** Binding a key to the value it already has, once or twice, gives the same map. */
  lemma BindAgain<K, V>(m: map<K, V>, k: K, v: V)
    ensures m[k := v][k := v] == m[k := v]
    ensures k in m && m[k] == v ==> m[k := v] == m
  {
  }

  /** The frames cut from a strip; their pixels are not modelled, so each is represented by the strip. */
  function StripFrames(strip: Image, count: nat): (r: seq<Image>)
    ensures |r| == count
  {
    seq(count, _ => strip)
  }

  /** The holder a line fills: its name, its files and whether it is a group. */
  datatype Load = Load(index: string, files: seq<string>, group: bool)

  /** The holder a well-formed `o`, `n` or `g` line asks to create. */
  function Request(cmd: ImageCommand, dir: Option<string>): Option<Load>
  {
    match cmd
    case Single(file) => Some(Load(FileIndex(Resolve(dir, file)), [Resolve(dir, file)], false))
    case Numbered(prefix, suffix, count) => Some(Load(prefix, NumberedFiles(dir, prefix, suffix, count), false))
    case Group(name, files) => Some(Load(name, ResolveAll(dir, files), true))
    case _ => None
  }

  /** The outcome of a line, given the names already registered. */
  function Expected(parsed: Result<ImageCommand, LineError>, loaded: set<string>,
                    dir: Option<string>, present: string -> bool, decode: string -> Option<Image>): LineOutcome
  {
    match parsed
    case Err(e) => Rejected(e)
    case Ok(Skip) => Done
    case Ok(Strip(file, _)) =>
      if decode(Resolve(dir, file)).None? then Rejected(StripUnreadable) else Threw
    case Ok(Numbered(prefix, suffix, count)) =>
      if prefix in loaded then Rejected(SequenceAlreadyDefined(prefix))
      else (
        match FirstAbsent(NumberedFiles(dir, prefix, suffix, count), present)
        case Some(i) => Rejected(MissingSequenceImage(i, prefix))
        case None => Done)
    case Ok(cmd) =>
      var load := Request(cmd, dir).value;
      if load.index in loaded && Decoded(load.files, decode) != [] then Rejected(KeyAlreadyExists(load.index))
      else Done
  }

  /** The holder a line registers, if it registers one: it must pass and read at least one frame. */
  function Fills(parsed: Result<ImageCommand, LineError>, loaded: set<string>,
                 dir: Option<string>, present: string -> bool, decode: string -> Option<Image>): Option<Load>
  {
    if parsed.Err? || Expected(parsed, loaded, dir, present, decode) != Done then None
    else
      match Request(parsed.value, dir)
      case None => None
      case Some(load) => if Decoded(load.files, decode) == [] then None else Some(load)
  }

  /** The names registered after a line. */
  function After(parsed: Result<ImageCommand, LineError>, loaded: set<string>,
                 dir: Option<string>, present: string -> bool, decode: string -> Option<Image>): set<string>
  {
    match Fills(parsed, loaded, dir, present, decode)
    case None => loaded
    case Some(load) => loaded + {load.index}
  }

  /** A line that passes every check made before the registry is consulted, and is not a strip. */
  predicate Passes(parsed: Result<ImageCommand, LineError>)
  {
    parsed.Ok? && !parsed.value.Strip?
  }

  /** Only a line that Passes can be Done, only a strip throws, and a malformed line is rejected for its own reason. */
  lemma ExpectedKinds(parsed: Result<ImageCommand, LineError>, loaded: set<string>,
                      dir: Option<string>, present: string -> bool, decode: string -> Option<Image>)
    ensures Expected(parsed, loaded, dir, present, decode) == Done ==> Passes(parsed)
    ensures Expected(parsed, loaded, dir, present, decode) == Threw ==> parsed.Ok? && parsed.value.Strip?
    ensures parsed.Err? ==> Expected(parsed, loaded, dir, present, decode) == Rejected(parsed.error)
  {
  }

  /**
   * A line that asks for a holder and passes its own checks: it is
   * rejected exactly when the name is taken and some file can be read, and
   * fills its holder exactly when the name is free and some file can be read.
   */
  lemma Requested(cmd: ImageCommand, loaded: set<string>,
                  dir: Option<string>, present: string -> bool, decode: string -> Option<Image>)
    requires cmd.Single? || cmd.Group? ||
      (cmd.Numbered? && cmd.prefix !in loaded &&
       FirstAbsent(NumberedFiles(dir, cmd.prefix, cmd.suffix, cmd.count), present).None?)
    ensures Request(cmd, dir).Some?
    ensures var load := Request(cmd, dir).value;
      && Expected(Ok(cmd), loaded, dir, present, decode) ==
           (if load.index in loaded && Decoded(load.files, decode) != [] then Rejected(KeyAlreadyExists(load.index)) else Done)
      && Fills(Ok(cmd), loaded, dir, present, decode) ==
           (if load.index in loaded || Decoded(load.files, decode) == [] then None else Some(load))
  {
  }

  /** Every line of a configuration, parsed. */
  function ParseAll(lines: seq<string>): (r: seq<Result<ImageCommand, LineError>>)
    ensures |r| == |lines|
  {
    seq(|lines|, i requires 0 <= i < |lines| => ParseImageLine(lines[i]))
  }

  /**
   * Reading parsed lines, `done` lines having been read already: how it
   * ends and which names are then registered. A rejected line reports its
   * 1-based number and its trimmed text.
   */
  function Run(parsed: seq<Result<ImageCommand, LineError>>, texts: seq<string>, done: nat, loaded: set<string>,
               dir: Option<string>, present: string -> bool, decode: string -> Option<Image>): (LoadResult, set<string>)
    requires |texts| == |parsed|
    decreases |parsed|
  {
    if parsed == [] then (Loaded, loaded)
    else
      match Expected(parsed[0], loaded, dir, present, decode)
      case Done => Run(parsed[1..], texts[1..], done + 1, After(parsed[0], loaded, dir, present, decode), dir, present, decode)
      case Rejected(e) => (BadLine(done + 1, texts[0], e), loaded)
      case Threw => (Crashed(done + 1), loaded)
  }

  /** A file read to the end has every line Passing. */
  lemma {:induction false} RunLoaded(parsed: seq<Result<ImageCommand, LineError>>, texts: seq<string>, done: nat,
                                     loaded: set<string>,
                                     dir: Option<string>, present: string -> bool, decode: string -> Option<Image>)
    requires |texts| == |parsed|
    requires Run(parsed, texts, done, loaded, dir, present, decode).0.Loaded?
    ensures forall i | 0 <= i < |parsed| :: Passes(parsed[i])
    decreases |parsed|
  {
    if parsed != [] {
      ExpectedKinds(parsed[0], loaded, dir, present, decode);
      var next := After(parsed[0], loaded, dir, present, decode);
      RunLoaded(parsed[1..], texts[1..], done + 1, next, dir, present, decode);
      assert forall i | 1 <= i < |parsed| :: parsed[i] == parsed[1..][i - 1];
    }
  }

  /**
   * Where reading stops early: at the first line that is not Done. Every
   * line before it Passes; a rejected line is reported with its own text,
   * and a malformed one for its own reason; an escaping exception comes
   * only from a strip line.
   */
  lemma {:induction false} RunStops(parsed: seq<Result<ImageCommand, LineError>>, texts: seq<string>, done: nat,
                                    loaded: set<string>,
                                    dir: Option<string>, present: string -> bool, decode: string -> Option<Image>)
    requires |texts| == |parsed|
    requires !Run(parsed, texts, done, loaded, dir, present, decode).0.Loaded?
    ensures var res := Run(parsed, texts, done, loaded, dir, present, decode).0;
      var at := res.lineNumber - done - 1;
      && 0 <= at < |parsed|
      && (forall i | 0 <= i < at :: Passes(parsed[i]))
      && (res.BadLine? ==> res.line == texts[at] && (parsed[at].Err? ==> res.error == parsed[at].error))
      && (res.Crashed? ==> parsed[at].Ok? && parsed[at].value.Strip?)
    decreases |parsed|
  {
    ExpectedKinds(parsed[0], loaded, dir, present, decode);
    if Expected(parsed[0], loaded, dir, present, decode) == Done {
      var next := After(parsed[0], loaded, dir, present, decode);
      RunStops(parsed[1..], texts[1..], done + 1, next, dir, present, decode);
      assert forall i | 1 <= i < |parsed| :: parsed[i] == parsed[1..][i - 1];
      assert forall i | 1 <= i < |texts| :: texts[i] == texts[1..][i - 1];
    }
  }

  /** Names are only ever added: reading never unregisters a holder. */
  lemma {:induction false} RunGrows(parsed: seq<Result<ImageCommand, LineError>>, texts: seq<string>, done: nat,
                                    loaded: set<string>,
                                    dir: Option<string>, present: string -> bool, decode: string -> Option<Image>)
    requires |texts| == |parsed|
    ensures loaded <= Run(parsed, texts, done, loaded, dir, present, decode).1
    decreases |parsed|
  {
    if parsed != [] && Expected(parsed[0], loaded, dir, present, decode) == Done {
      RunGrows(parsed[1..], texts[1..], done + 1, After(parsed[0], loaded, dir, present, decode), dir, present, decode);
    }
  }

  /** A holder filled with the frames of `load` that could be read (and, for a group, their names). */
  ghost predicate Filled(h: ImageHolder, load: Load, naming: string -> string, decode: string -> Option<Image>)
    reads h
  {
    && h.isGroup == load.group
    && h.images == Decoded(load.files, decode)
    && h.imageNames == (if load.group then DecodedNames(load.files, decode, naming) else [])
    && (load.group ==> h.resourceIndex == naming)
  }

  /** How loadImages with a file array can end. */
  datatype ArrayFault = HolderClash(name: string) | NullFileArray | ShortFileArray(index: nat)

  /** The names a group holder derives from files. */
  function Names(files: seq<string>, naming: string -> string): (r: seq<string>)
    ensures |r| == |files|
  {
    seq(|files|, i requires 0 <= i < |files| => naming(files[i]))
  }

  /** The registry: holder names to holders. */
  class ImageLoader {
    var imagesMap: map<string, ImageHolder>
    /** The naming rule group holders apply to their files. */
    const resourceIndex: string -> string

    /** new ImageLoader(): nothing registered. */
    constructor (resourceIndex: string -> string)
      ensures imagesMap == map[] && this.resourceIndex == resourceIndex
    {
      imagesMap := map[];
      this.resourceIndex := resourceIndex;
    }

    /** `index` is taken by a holder other than `holder`. */
    predicate Clashes(index: string, holder: ImageHolder)
      reads this
    {
      index in imagesMap && imagesMap[index] != holder
    }

    /** The holder loadImage adds to: the registered one, else the given one, or none when it throws. */
    ghost function Receiver(index: string, holder: ImageHolder?): set<ImageHolder>
      reads this
    {
      if index in imagesMap then
        if holder == null || holder == imagesMap[index] then {imagesMap[index]} else {}
      else if holder != null then {holder} else {}
    }

    /**
     * loadImage: registers `holder` (a new plain holder when null) under a
     * free `index`, then adds the frame to the holder registered there; a
     * different holder already registered under `index` is a clash that
     * changes nothing.
     */
    method LoadImage(index: string, imageFile: Option<string>, image: Image, holder: ImageHolder?)
      returns (r: Outcome<LineError>)
      modifies this`imagesMap, Receiver(index, holder)
      ensures r.Fail? <==> index in old(imagesMap) && holder != null && holder != old(imagesMap[index])
      ensures r.Fail? ==> r.error == KeyAlreadyExists(index) && imagesMap == old(imagesMap)
      ensures r.Pass? && index in old(imagesMap) ==>
        imagesMap == old(imagesMap) && imagesMap[index].Appended(imageFile, image)
      ensures index !in old(imagesMap) && holder != null ==>
        imagesMap == old(imagesMap)[index := holder] && holder.Appended(imageFile, image)
      ensures index !in old(imagesMap) && holder == null ==>
        && index in imagesMap && imagesMap == old(imagesMap)[index := imagesMap[index]]
        && fresh(imagesMap[index]) && !imagesMap[index].isGroup && imagesMap[index].images == [image]
    {
      var target: ImageHolder;
      if index !in imagesMap {
        if holder == null {
          target := new ImageHolder();
        } else {
          target := holder;
        }
        imagesMap := imagesMap[index := target];
      } else if holder != null && holder != imagesMap[index] {
        return Fail(KeyAlreadyExists(index));
      } else {
        target := imagesMap[index];
      }
      target.AddImage(imageFile, image);
      r := Pass;
    }

    /**
     * loadImages over files: each file that can be read goes into the
     * holder under `index`; the others are skipped. A clash stops it at the
     * first readable file, before anything has changed.
     */
    method LoadImages(index: string, files: seq<string>, decode: string -> Option<Image>, holder: ImageHolder)
      returns (r: Outcome<LineError>)
      modifies this`imagesMap, holder
      ensures old(Clashes(index, holder)) ==>
        && imagesMap == old(imagesMap) && holder.images == old(holder.images) && holder.imageNames == old(holder.imageNames)
        && r == if Decoded(files, decode) == [] then Pass else Fail(KeyAlreadyExists(index))
      ensures !old(Clashes(index, holder)) ==>
        && r == Pass
        && holder.images == old(holder.images) + Decoded(files, decode)
        && holder.imageNames ==
             old(holder.imageNames) + (if holder.isGroup then DecodedNames(files, decode, holder.resourceIndex) else [])
        && imagesMap ==
             if index in old(imagesMap) || Decoded(files, decode) != [] then old(imagesMap)[index := holder]
             else old(imagesMap)
    {
      ghost var clash := Clashes(index, holder);
      var i := 0;
      while i < |files|
        invariant 0 <= i <= |files|
        invariant clash ==> Decoded(files[..i], decode) == []
        invariant holder.images == old(holder.images) + Decoded(files[..i], decode)
        invariant !holder.isGroup ==> holder.imageNames == old(holder.imageNames)
        invariant holder.isGroup ==>
          holder.imageNames == old(holder.imageNames) + DecodedNames(files[..i], decode, holder.resourceIndex)
        invariant imagesMap ==
          if !clash && (index in old(imagesMap) || Decoded(files[..i], decode) != []) then old(imagesMap)[index := holder]
          else old(imagesMap)
      {
        var file := files[i];
        DecodedStep(files, i, decode, holder.resourceIndex);
        if decode(file).Some? {
          var step := LoadImage(index, Some(file), decode(file).value, holder);
          if step.Fail? {
            DecodedEmpty(files, decode);
            return step;
          }
          BindAgain(old(imagesMap), index, holder);
          AppendAssoc(old(holder.images), Decoded(files[..i], decode), [decode(file).value]);
          if holder.isGroup {
            AppendAssoc(old(holder.imageNames), DecodedNames(files[..i], decode, holder.resourceIndex), [holder.resourceIndex(file)]);
          }
        }
        i := i + 1;
      }
      assert files[..|files|] == files;
      r := Pass;
    }

    /**
     * loadImages with a file array beside the frame array, as written: the
     * i-th frame goes in with the i-th file, so a missing file array throws
     * at the first frame and a short one once it runs out.
     */
    method LoadImagesArrays(index: string, imageFiles: Option<seq<string>>, images: seq<Image>, holder: ImageHolder)
      returns (r: Outcome<ArrayFault>)
      modifies this`imagesMap, holder
      ensures images == [] ==> r == Pass && imagesMap == old(imagesMap) && unchanged(holder)
      ensures images != [] && imageFiles.None? ==>
        r == Fail(NullFileArray) && imagesMap == old(imagesMap) && unchanged(holder)
      ensures images != [] && imageFiles.Some? && old(Clashes(index, holder)) ==>
        && imagesMap == old(imagesMap) && unchanged(holder)
        && r == Fail(if imageFiles.value == [] then ShortFileArray(0) else HolderClash(index))
      ensures imageFiles.Some? && !old(Clashes(index, holder)) ==>
        var n := if |imageFiles.value| < |images| then |imageFiles.value| else |images|;
        && r == (if n < |images| then Fail(ShortFileArray(n)) else Pass)
        && holder.images == old(holder.images) + images[..n]
        && holder.imageNames ==
             old(holder.imageNames) + (if holder.isGroup then Names(imageFiles.value[..n], holder.resourceIndex) else [])
        && imagesMap == if index in old(imagesMap) || n > 0 then old(imagesMap)[index := holder] else old(imagesMap)
    {
      var i := 0;
      while i < |images|
        invariant 0 <= i <= |images|
        invariant i > 0 ==> imageFiles.Some? && i <= |imageFiles.value| && !old(Clashes(index, holder))
        invariant i == 0 ==> imagesMap == old(imagesMap) && unchanged(holder)
        invariant imageFiles.Some? && i <= |imageFiles.value| && !old(Clashes(index, holder)) ==>
          && holder.images == old(holder.images) + images[..i]
          && holder.imageNames ==
               old(holder.imageNames) + (if holder.isGroup then Names(imageFiles.value[..i], holder.resourceIndex) else [])
          && imagesMap == if index in old(imagesMap) || i > 0 then old(imagesMap)[index := holder] else old(imagesMap)
      {
        if imageFiles.None? {
          return Fail(NullFileArray);
        }
        if i >= |imageFiles.value| {
          return Fail(ShortFileArray(i));
        }
        var file := imageFiles.value[i];
        assert images[..i + 1] == images[..i] + [images[i]];
        assert imageFiles.value[..i + 1] == imageFiles.value[..i] + [file];
        var step := LoadImage(index, Some(file), images[i], holder);
        if step.Fail? {
          return Fail(HolderClash(index));
        }
        i := i + 1;
      }
      assert images[..|images|] == images;
      r := Pass;
    }

    /**
     * The strip load as evidently intended: every frame goes into the
     * holder without a file, which a plain holder accepts.
     */
    method LoadFrames(index: string, images: seq<Image>, holder: ImageHolder)
      returns (r: Outcome<LineError>)
      requires !holder.isGroup
      modifies this`imagesMap, holder
      ensures old(Clashes(index, holder)) ==>
        && imagesMap == old(imagesMap) && unchanged(holder)
        && r == if images == [] then Pass else Fail(KeyAlreadyExists(index))
      ensures !old(Clashes(index, holder)) ==>
        && r == Pass
        && holder.images == old(holder.images) + images
        && holder.imageNames == old(holder.imageNames)
        && imagesMap == if index in old(imagesMap) || images != [] then old(imagesMap)[index := holder] else old(imagesMap)
    {
      var i := 0;
      while i < |images|
        invariant 0 <= i <= |images|
        invariant old(Clashes(index, holder)) ==> i == 0 && imagesMap == old(imagesMap) && unchanged(holder)
        invariant !old(Clashes(index, holder)) ==>
          && holder.images == old(holder.images) + images[..i]
          && holder.imageNames == old(holder.imageNames)
          && imagesMap == if index in old(imagesMap) || i > 0 then old(imagesMap)[index := holder] else old(imagesMap)
      {
        assert images[..i + 1] == images[..i] + [images[i]];
        var step := LoadImage(index, None, images[i], holder);
        if step.Fail? {
          return step;
        }
        i := i + 1;
      }
      assert images[..|images|] == images;
      r := Pass;
    }

    /**
     * What a line did to the registry: it ended as Expected says, and it
     * registered exactly the holder Fills names, fresh and filled, under a
     * name that was free.
     */
    twostate predicate LineEffect(parsed: Result<ImageCommand, LineError>, dir: Option<string>,
                                  present: string -> bool, decode: string -> Option<Image>, r: LineOutcome)
      reads this, imagesMap.Values
    {
      && r == Expected(parsed, old(imagesMap).Keys, dir, present, decode)
      && match Fills(parsed, old(imagesMap).Keys, dir, present, decode)
         case None => imagesMap == old(imagesMap)
         case Some(load) =>
           && load.index !in old(imagesMap) && load.index in imagesMap
           && imagesMap == old(imagesMap)[load.index := imagesMap[load.index]]
           && fresh(imagesMap[load.index]) && Filled(imagesMap[load.index], load, resourceIndex, decode)
    }

    /** A new holder (a group when asked) filled from `files` under `index`. */
    method LoadFresh(index: string, files: seq<string>, group: bool, decode: string -> Option<Image>)
      returns (r: LineOutcome)
      modifies this`imagesMap
      ensures r == if index in old(imagesMap) && Decoded(files, decode) != [] then Rejected(KeyAlreadyExists(index)) else Done
      ensures index !in old(imagesMap) && Decoded(files, decode) != [] ==>
        && index in imagesMap && imagesMap == old(imagesMap)[index := imagesMap[index]]
        && fresh(imagesMap[index]) && Filled(imagesMap[index], Load(index, files, group), resourceIndex, decode)
      ensures index in old(imagesMap) || Decoded(files, decode) == [] ==> imagesMap == old(imagesMap)
    {
      var holder: ImageHolder;
      if group {
        holder := new ImageHolder.Group(resourceIndex);
      } else {
        holder := new ImageHolder();
      }
      var result := LoadImages(index, files, decode, holder);
      r := if result.Fail? then Rejected(result.error) else Done;
    }

    /** An `o` line: the image under its file name. */
    method LoadSingle(file: string, dir: Option<string>, present: string -> bool, decode: string -> Option<Image>)
      returns (r: LineOutcome)
      modifies this`imagesMap
      ensures LineEffect(Ok(Single(file)), dir, present, decode, r)
    {
      var path := Resolve(dir, file);
      Requested(Single(file), imagesMap.Keys, dir, present, decode);
      r := LoadFresh(FileIndex(path), [path], false, decode);
    }

    /** An `n` line: a free prefix, every numbered file present, then the files. */
    method LoadNumbered(prefix: string, suffix: string, count: nat, dir: Option<string>,
                        present: string -> bool, decode: string -> Option<Image>)
      returns (r: LineOutcome)
      modifies this`imagesMap
      ensures LineEffect(Ok(Numbered(prefix, suffix, count)), dir, present, decode, r)
    {
      if prefix in imagesMap {
        return Rejected(SequenceAlreadyDefined(prefix));
      }
      var files, missing := SequenceFiles(dir, prefix, suffix, count, present);
      if missing.Some? {
        return Rejected(MissingSequenceImage(missing.value, prefix));
      }
      Requested(Numbered(prefix, suffix, count), imagesMap.Keys, dir, present, decode);
      r := LoadFresh(prefix, files, false, decode);
    }

    /** An `s` line: an unreadable strip is rejected; a readable one reaches the file-array load and throws. */
    method LoadStripLine(file: string, count: nat, dir: Option<string>,
                         present: string -> bool, decode: string -> Option<Image>)
      returns (r: LineOutcome)
      requires count > 0
      modifies this`imagesMap
      ensures LineEffect(Ok(Strip(file, count)), dir, present, decode, r)
    {
      var path := Resolve(dir, file);
      ghost var expected := Expected(Ok(Strip(file, count)), imagesMap.Keys, dir, present, decode);
      match decode(path) {
        case None =>
          assert expected == Rejected(StripUnreadable);
          r := Rejected(StripUnreadable);
        case Some(NullImage) =>
          // the strip's width is read from the null frame
          r := Threw;
        case Some(strip) =>
          assert expected == Threw;
          var holder := new ImageHolder();
          var result := LoadImagesArrays(FileIndex(path), None, StripFrames(strip, count), holder);
          r := if result == Fail(NullFileArray) then Threw else Done;
      }
    }

    /** A `g` line: a group holder over the files, named by the group. */
    method LoadGroup(name: string, files: seq<string>, dir: Option<string>,
                     present: string -> bool, decode: string -> Option<Image>)
      returns (r: LineOutcome)
      modifies this`imagesMap
      ensures LineEffect(Ok(Group(name, files)), dir, present, decode, r)
    {
      Requested(Group(name, files), imagesMap.Keys, dir, present, decode);
      r := LoadFresh(name, ResolveAll(dir, files), true, decode);
    }

    /**
     * One parsed line of loadImagesFromConfig: a malformed line is rejected
     * for its own reason, a blank or comment line does nothing, a command
     * goes to its loader.
     */
    method LoadParsed(parsed: Result<ImageCommand, LineError>, dir: Option<string>,
                      present: string -> bool, decode: string -> Option<Image>)
      returns (r: LineOutcome)
      requires parsed.Ok? && parsed.value.Strip? ==> parsed.value.count > 0
      modifies this`imagesMap
      ensures LineEffect(parsed, dir, present, decode, r)
      ensures imagesMap.Keys == After(parsed, old(imagesMap).Keys, dir, present, decode)
      ensures forall k | k in old(imagesMap) :: k in imagesMap && imagesMap[k] == old(imagesMap)[k]
      ensures forall k | k in imagesMap && k !in old(imagesMap) :: fresh(imagesMap[k]) && imagesMap[k].images != []
    {
      if parsed.Err? {
        r := Rejected(parsed.error);
      } else {
        match parsed.value
        case Skip =>
          r := Done;
        case Single(file) =>
          r := LoadSingle(file, dir, present, decode);
        case Numbered(prefix, suffix, count) =>
          r := LoadNumbered(prefix, suffix, count, dir, present, decode);
        case Strip(file, count) =>
          r := LoadStripLine(file, count, dir, present, decode);
        case Group(name, files) =>
          r := LoadGroup(name, files, dir, present, decode);
      }
      Registration(parsed, old(imagesMap), imagesMap, dir, present, decode);
    }

    /**
     * Line `i` of loadImagesFromConfig, parsed and loaded: how reading goes
     * on from it is how Run goes on from it, and no line ends in a way that
     * unregisters or replaces a holder.
     */
    method LoadLine(lines: seq<string>, i: nat, dir: Option<string>, present: string -> bool,
                    decode: string -> Option<Image>)
      returns (r: LineOutcome)
      requires i < |lines|
      modifies this`imagesMap
      ensures Run(ParseAll(lines)[i..], TrimAll(lines)[i..], i, old(imagesMap).Keys, dir, present, decode) ==
        match r
        case Done => Run(ParseAll(lines)[i + 1..], TrimAll(lines)[i + 1..], i + 1, imagesMap.Keys, dir, present, decode)
        case Rejected(e) => (BadLine(i + 1, Trim(lines[i]), e), imagesMap.Keys)
        case Threw => (Crashed(i + 1), imagesMap.Keys)
      ensures forall k | k in old(imagesMap) :: k in imagesMap && imagesMap[k] == old(imagesMap)[k]
      ensures forall k | k in imagesMap && k !in old(imagesMap) :: fresh(imagesMap[k])
    {
      ghost var parsed := ParseAll(lines);
      ghost var texts := TrimAll(lines);
      assert parsed[i] == ParseImageLine(lines[i]) && texts[i] == Trim(lines[i]);
      RunAt(parsed, texts, i, imagesMap.Keys, dir, present, decode);
      r := LoadParsed(ParseImageLine(lines[i]), dir, present, decode);
    }

    /**
     * loadImagesFromConfig: reads the lines in order and stops at the first
     * one rejected or throwing, as Run says. Names already registered keep
     * their holders untouched; each new name gets a fresh holder (with at
     * least one frame, as LoadParsed says line by line).
     */
    method LoadImagesFromConfig(lines: seq<string>, dir: Option<string>, present: string -> bool,
                                decode: string -> Option<Image>)
      returns (r: LoadResult)
      modifies this`imagesMap
      ensures (r, imagesMap.Keys) == Run(ParseAll(lines), TrimAll(lines), 0, old(imagesMap).Keys, dir, present, decode)
      ensures forall k | k in old(imagesMap) :: k in imagesMap && imagesMap[k] == old(imagesMap)[k]
      ensures forall k | k in imagesMap && k !in old(imagesMap) :: fresh(imagesMap[k])
    {
      ghost var parsed := ParseAll(lines);
      ghost var texts := TrimAll(lines);
      var i := 0;
      while i < |lines|
        invariant 0 <= i <= |lines|
        invariant Run(parsed, texts, 0, old(imagesMap).Keys, dir, present, decode)
               == Run(parsed[i..], texts[i..], i, imagesMap.Keys, dir, present, decode)
        invariant forall k | k in old(imagesMap) :: k in imagesMap && imagesMap[k] == old(imagesMap)[k]
        invariant forall k | k in imagesMap && k !in old(imagesMap) :: fresh(imagesMap[k])
      {
        var outcome := LoadLine(lines, i, dir, present, decode);
        match outcome {
          case Done =>
          case Rejected(e) =>
            return BadLine(i + 1, Trim(lines[i]), e);
          case Threw =>
            return Crashed(i + 1);
        }
        i := i + 1;
      }
      r := Loaded;
    }

    /* ---------- lookups ---------- */

    predicate IsLoaded(name: string)
      reads this
    {
      name in imagesMap
    }

    /** getHolder: the registered holder, or NoSuchElement. */
    function GetHolder(name: string): (r: Result<ImageHolder, ImageError>)
      reads this
      ensures r.Ok? <==> IsLoaded(name)
      ensures r.Ok? ==> r.value == imagesMap[name]
      ensures r.Err? ==> r.error == NoSuchElement(name)
    {
      if name in imagesMap then Ok(imagesMap[name]) else Err(NoSuchElement(name))
    }

    /** getGroupHolder: the holder if it is a group, null if it is not, NoSuchElement if absent. */
    function GetGroupHolder(name: string): (r: Result<Option<ImageHolder>, ImageError>)
      reads this
      ensures r.Err? <==> GetHolder(name).Err?
      ensures r.Ok? ==> (r.value.Some? <==> GetHolder(name).value.isGroup)
      ensures r.Ok? && r.value.Some? ==> r.value.value == GetHolder(name).value
    {
      match GetHolder(name)
      case Err(e) => Err(e)
      case Ok(h) => if h.isGroup then Ok(Some(h)) else Ok(None)
    }

    /** numImages: the holder's frame count, 0 when nothing is registered under the name. */
    function NumImages(name: string): (n: nat)
      reads this, imagesMap.Values
      ensures n > 0 ==> IsLoaded(name)
      ensures IsLoaded(name) ==> n == GetHolder(name).value.CountImages()
    {
      if name !in imagesMap then 0 else imagesMap[name].CountImages()
    }

    /** getImage: the holder's first frame; an empty holder throws IndexOutOfBounds. */
    function GetImage(name: string): (r: Result<Image, ImageError>)
      reads this, imagesMap.Values
      ensures r.Ok? <==> NumImages(name) > 0
      ensures r.Ok? ==> r.value == GetHolder(name).value.images[0]
      ensures r.Err? ==> r.error == if IsLoaded(name) then IndexOutOfBounds(0) else NoSuchElement(name)
    {
      match GetHolder(name)
      case Err(e) => Err(e)
      case Ok(h) => if h.images == [] then Err(IndexOutOfBounds(0)) else Ok(h.images[0])
    }
  }

  /**
   * Registering the holder a line fills, and nothing else: the names become
   * those After says, old bindings stay, and the only new name is the
   * filled one, whose holder has frames to read.
   */
  lemma Registration<V>(parsed: Result<ImageCommand, LineError>, m0: map<string, V>, m1: map<string, V>,
                        dir: Option<string>, present: string -> bool, decode: string -> Option<Image>)
    requires match Fills(parsed, m0.Keys, dir, present, decode)
             case None => m1 == m0
             case Some(load) => load.index !in m0 && load.index in m1 && m1 == m0[load.index := m1[load.index]]
    ensures m1.Keys == After(parsed, m0.Keys, dir, present, decode)
    ensures forall k | k in m0 :: k in m1 && m1[k] == m0[k]
    ensures forall k | k in m1 && k !in m0 ::
      var fills := Fills(parsed, m0.Keys, dir, present, decode);
      fills.Some? && k == fills.value.index && Decoded(fills.value.files, decode) != []
  {
  }

  /** Run from line `i` on takes one step. */
  lemma RunAt(parsed: seq<Result<ImageCommand, LineError>>, texts: seq<string>, i: nat, loaded: set<string>,
              dir: Option<string>, present: string -> bool, decode: string -> Option<Image>)
    requires |texts| == |parsed| && i < |parsed|
    ensures Run(parsed[i..], texts[i..], i, loaded, dir, present, decode) ==
      match Expected(parsed[i], loaded, dir, present, decode)
      case Done => Run(parsed[i + 1..], texts[i + 1..], i + 1, After(parsed[i], loaded, dir, present, decode), dir, present, decode)
      case Rejected(e) => (BadLine(i + 1, texts[i], e), loaded)
      case Threw => (Crashed(i + 1), loaded)
  {
    assert parsed[i..][1..] == parsed[i + 1..] && texts[i..][1..] == texts[i + 1..];
  }
}
