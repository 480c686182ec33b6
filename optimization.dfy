/**
  The back end (src-tauri/src/optimization.rs): collecting the images below the
  selected paths, choosing a fresh output directory, optimising one image into it
  and running the whole batch.

  The file system and the encoders are outside the model. A `World` answers every
  question the code asks of them: what the directory walk yields below a path,
  which paths are files and which exist, the size of a file once it is written,
  whether creating a directory succeeds, and whether an encoder call fails and
  with which message. Every such answer is a function of the question, so the
  order in which the parallel iterators ask does not change any answer.
*/
module Optimization {
  import opened Wrappers
  import opened Text
  import opened Paths
  import opened Sorting
  import opened Optimize

  /** The extensions, lower-cased, that count as images. */
  const ImageExtensions: seq<string> := ["png", "jpg", "jpeg"]

  /** An entry of the directory walk: its path and whether it is a regular file. */
  datatype DirEntry = DirEntry(path: Path, isFile: bool)

  datatype Encoder =
    | Mozjpeg(jpgQuality: real)
    | Oxipng
    | Imagequant(png8Quality: real)
    | WebpEncoder(webpQuality: real)

  /** One call of an encoder, reading `input` and writing `output`. */
  datatype EncodeCall = EncodeCall(encoder: Encoder, input: Path, output: Path)

  datatype World = World(
    walk: Path -> seq<DirEntry>,
    files: set<Path>,
    existing: set<Path>,
    sizes: map<Path, nat>,
    createDirOk: Path -> bool,
    createDirAllOk: Path -> bool,
    encode: EncodeCall -> Option<string>)

  /** `format!("{:?}", s)` for a string without characters that need escaping. */
  function Quoted(s: string): string {
    "\"" + s + "\""
  }

  // ---------------------------------------------------------------------------
  // Collecting the images

  /** The filter of `get_image_entries_from_path`: a regular file whose extension,
      lower-cased, is one of the image extensions. A file without an extension is
      not an image. */
  predicate IsImageEntry(e: DirEntry): (b: bool)
    ensures b ==> e.isFile && Extension(e.path).Some? && |Extension(e.path).value| >= 3
  {
    e.isFile && match Extension(e.path)
      case None => false
      case Some(ext) => Lower(ext) in ImageExtensions
  }

  /** `get_image_entries_from_path`: the image entries of a walk, in walk order. */
  function ImageEntries(walk: seq<DirEntry>): (es: seq<DirEntry>)
    ensures |es| <= |walk|
    ensures forall e :: e in es <==> e in walk && IsImageEntry(e)
  {
    if walk == [] then []
    else if IsImageEntry(walk[0]) then [walk[0]] + ImageEntries(walk[1..])
    else ImageEntries(walk[1..])
  }

  /** The filter keeps the walk's order: the image entries of a concatenation are
      those of its parts, one after the other. */
  lemma {:induction false} ImageEntriesAppend(a: seq<DirEntry>, b: seq<DirEntry>)
    ensures ImageEntries(a + b) == ImageEntries(a) + ImageEntries(b)
  {
    if a != [] {
      assert (a + b)[0] == a[0] && (a + b)[1..] == a[1..] + b;
      ImageEntriesAppend(a[1..], b);
    } else {
      assert a + b == b;
    }
  }

  /** Names the image filter keeps: case is ignored and the part after the last
      dot is the extension. */
  lemma ExtensionExamples()
    ensures IsImageEntry(DirEntry(Path(true, ["photos", "IMG.JPG"]), true))
    ensures IsImageEntry(DirEntry(Path(true, ["a.b.png"]), true))
  {
    LastDotIsLast("IMG.JPG", 3);
    assert NameExtension("IMG.JPG") == Some("JPG") by {
      assert "IMG.JPG"[4..] == "JPG";
    }
    assert Lower("JPG") == "jpg";
    LastDotIsLast("a.b.png", 3);
    assert NameExtension("a.b.png") == Some("png") by {
      assert "a.b.png"[4..] == "png";
    }
    assert Lower("png") == "png";
  }

  /** Files that the filter passes over: a directory, a name that is all
      extension, a name without a dot and a name whose last extension is another one. */
  lemma NonImageExamples()
    ensures !IsImageEntry(DirEntry(Path(true, ["a.png"]), false))
    ensures !IsImageEntry(DirEntry(Path(true, [".png"]), true))
    ensures !IsImageEntry(DirEntry(Path(true, ["png"]), true))
    ensures !IsImageEntry(DirEntry(Path(true, ["a.png.gif"]), true))
  {
    LastDotIsLast(".png", 0);
    assert NameExtension(".png") == None;
    assert LastDot("png") == None;
    LastDotIsLast("a.png.gif", 5);
    assert NameExtension("a.png.gif") == Some("gif") by {
      assert "a.png.gif"[6..] == "gif";
    }
    assert Lower("gif") == "gif";
  }

  /** `get_relative_path_str`: the path relative to `root` when `root` is a prefix
      of it, and the path itself otherwise. */
  function RelativePathStr(abs: Path, root: Path): (s: string)
    ensures StripPrefix(abs, root).Some? ==> s == Display(StripPrefix(abs, root).value)
    ensures StripPrefix(abs, root).None? ==> s == Display(abs)
  {
    Display(StripPrefix(abs, root).GetOr(abs))
  }

  /** A path built by joining a relative path onto a root is shown as that
      relative path. */
  lemma RelativeOfJoin(root: Path, rel: Path)
    requires !rel.absolute
    ensures RelativePathStr(Join(root, rel), root) == Display(rel)
  {
    StripPrefixOfJoin(root, rel);
  }

  // ---------------------------------------------------------------------------
  // The errors of optimize_image

  datatype ImageError =
    | NoFileName(root: Path)
    | NoParent(path: Path)
    | NotUnderParent(parent: Path, entry: Path)
    | CreateDirFailed(dir: Path)
    | MetadataFailed(file: Path)
    | NoExtension(file: Path)
    | UnsupportedExtension(ext: string)
    | EncoderFailed(message: string)

  /** `e.to_string()`: the outermost context, or the encoder's own message. */
  function Message(e: ImageError): (m: string)
    ensures e.UnsupportedExtension? ==> m == "Unsupported extension: " + Quoted(e.ext)
    ensures e.EncoderFailed? ==> m == e.message
  {
    match e
    case NoFileName(root) => "Failed to get file name of " + Quoted(Display(root))
    case NoParent(path) => "Failed to get parent of " + Quoted(Display(path))
    case NotUnderParent(parent, entry) =>
      "Failed to strip prefix of " + Quoted(Display(parent)) + " from " + Quoted(Display(entry))
    case CreateDirFailed(dir) => "Failed to create directory " + Quoted(Display(dir))
    case MetadataFailed(file) => "Failed to get metadata of " + Quoted(Display(file))
    case NoExtension(file) => "Failed to get extension of " + Quoted(Display(file))
    case UnsupportedExtension(ext) => "Unsupported extension: " + Quoted(ext)
    case EncoderFailed(message) => message
  }

  // ---------------------------------------------------------------------------
  // Optimising one image

  /** One image to optimise: the selected path it was found under, and its entry. */
  datatype Input = Input(root: Path, entry: DirEntry)

  /** Where an image goes: its path relative to the output directory, and the
      output file. */
  datatype Placement = Placement(relative: Path, output: Path)

  /** The relative path of an image: for a selected file, its name (so it lands
      directly in the output directory); for a selected directory, its path from
      the directory's parent (so the directory is recreated there). */
  function RelativeToRoot(input: Input, world: World): (r: Result<Path, ImageError>)
    ensures r.Ok? ==> !r.value.absolute && Parent(input.root).Some?
    ensures r.Ok? && input.root in world.files ==>
      |r.value.parts| == 1 && Join(Parent(input.root).value, r.value) == input.root
    ensures r.Ok? && input.root !in world.files ==> Join(Parent(input.root).value, r.value) == input.entry.path
  {
    if input.root in world.files then
      match FileName(input.root)
      case None => Err(NoFileName(input.root))
      case Some(name) =>
        assert input.root.parts == input.root.parts[..|input.root.parts| - 1] + [name];
        Ok(Path(false, [name]))
    else
      match Parent(input.root)
      case None => Err(NoParent(input.root))
      case Some(parent) =>
        match StripPrefix(input.entry.path, parent)
        case None => Err(NotUnderParent(parent, input.entry.path))
        case Some(rel) => Ok(rel)
  }

  /** The first part of `optimize_image`: the output path, its parent directory
      created when it does not exist yet (the output directory itself was just
      created), and the entry's size. */
  function Place(input: Input, distDir: Path, world: World): (r: Result<(Placement, nat), ImageError>)
    ensures RelativeToRoot(input, world).Err? ==> r == Err(RelativeToRoot(input, world).error)
    ensures r.Ok? ==> RelativeToRoot(input, world) == Ok(r.value.0.relative)
    ensures r.Ok? ==> r.value.0.output == Join(distDir, r.value.0.relative)
    ensures r.Ok? ==> input.entry.path in world.sizes && r.value.1 == world.sizes[input.entry.path]
  {
    match RelativeToRoot(input, world)
    case Err(e) => Err(e)
    case Ok(rel) =>
      var out := Join(distDir, rel);
      match Parent(out)
      case None => Err(NoParent(out))
      case Some(outParent) =>
        if outParent != distDir && outParent !in world.existing && !world.createDirAllOk(outParent)
        then Err(CreateDirFailed(outParent))
        else if input.entry.path !in world.sizes then Err(MetadataFailed(input.entry.path))
        else Ok((Placement(rel, out), world.sizes[input.entry.path]))
  }

  /** The encoder for a lower-cased extension, if it is supported. */
  function OptimizerFor(ext: string, options: OptimizeOptions): (r: Option<Encoder>)
    ensures r.Some? <==> ext in ImageExtensions
  {
    if ext == "jpg" || ext == "jpeg" then Some(Mozjpeg(options.jpgQuality))
    else if ext == "png" then
      Some(if options.usePng8 then Imagequant(options.png8Quality) else Oxipng)
    else None
  }

  /** Every entry the image filter keeps has an encoder, whatever the options. */
  lemma ImagesHaveEncoders(e: DirEntry, options: OptimizeOptions)
    requires IsImageEntry(e)
    ensures OptimizerFor(Lower(Extension(e.path).value), options).Some?
  {
  }

  /** What one image gives: the results or the first error, and the encoder calls
      made on the way, in order. */
  datatype ImageRun = ImageRun(result: Result<seq<OptimizeResult>, ImageError>, calls: seq<EncodeCall>)

  /** An encoder call followed by the lookup of the size of what it wrote. */
  function EncodeAndMeasure(call: EncodeCall, distDir: Path, originalPath: string,
                            originalSize: nat, world: World): ImageRun
  {
    match world.encode(call)
    case Some(msg) => ImageRun(Err(EncoderFailed(msg)), [call])
    case None =>
      if call.output !in world.sizes then ImageRun(Err(MetadataFailed(call.output)), [call])
      else ImageRun(Ok([OptimizeResult(RelativePathStr(call.output, distDir), originalPath,
                                       originalSize, world.sizes[call.output])]), [call])
  }

  /** The optimisation step, when asked for: by the lower-cased extension, MozJPEG
      for JPEG, imagequant or oxipng for PNG, an error for anything else. */
  function OptimizeStep(input: Input, pl: Placement, originalSize: nat, distDir: Path,
                        options: OptimizeOptions, world: World): (run: ImageRun)
    ensures |run.calls| <= (if options.optimizeImages then 1 else 0)
    ensures run.result.Ok? ==> |run.result.value| == |run.calls| == (if options.optimizeImages then 1 else 0)
    ensures run.calls != [] ==> run.calls[0].input == input.entry.path && run.calls[0].output == pl.output
  {
    if !options.optimizeImages then ImageRun(Ok([]), [])
    else match Extension(input.entry.path)
      case None => ImageRun(Err(NoExtension(input.entry.path)), [])
      case Some(e) =>
        var ext := Lower(e);
        match OptimizerFor(ext, options)
        case None => ImageRun(Err(UnsupportedExtension(ext)), [])
        case Some(enc) =>
          EncodeAndMeasure(EncodeCall(enc, input.entry.path, pl.output), distDir,
                           Display(pl.relative), originalSize, world)
  }

  /** The WebP source: the optimised file when one was written and asked for,
      otherwise the original. */
  function WebpSource(input: Input, pl: Placement, options: OptimizeOptions): Path {
    if options.webpFromOptimized && options.optimizeImages then pl.output else input.entry.path
  }

  /** The WebP step, when asked for: the output path with its extension replaced. */
  function WebpStep(input: Input, pl: Placement, originalSize: nat, distDir: Path,
                    options: OptimizeOptions, world: World): (run: ImageRun)
    ensures |run.calls| == (if options.generateWebp then 1 else 0)
    ensures run.result.Ok? ==> |run.result.value| == |run.calls|
    ensures run.calls != [] ==>
      run.calls[0].encoder == WebpEncoder(options.webpQuality) && run.calls[0].output == WithExtension(pl.output, "webp")
  {
    if !options.generateWebp then ImageRun(Ok([]), [])
    else EncodeAndMeasure(
      EncodeCall(WebpEncoder(options.webpQuality), WebpSource(input, pl, options),
                 WithExtension(pl.output, "webp")),
      distDir, Display(pl.relative), originalSize, world)
  }

  /** What `optimize_image` does with one image: the placement, then the
      optimisation step, then the WebP step, stopping at the first error. */
  function ImagePlan(input: Input, distDir: Path, options: OptimizeOptions, world: World): ImageRun
  {
    match Place(input, distDir, world)
    case Err(e) => ImageRun(Err(e), [])
    case Ok(placed) =>
      var opt := OptimizeStep(input, placed.0, placed.1, distDir, options, world);
      if opt.result.Err? then opt
      else
        var webp := WebpStep(input, placed.0, placed.1, distDir, options, world);
        ImageRun(if webp.result.Err? then Err(webp.result.error) else Ok(opt.result.value + webp.result.value),
                 opt.calls + webp.calls)
  }

  /** `optimize_image`: the results are pushed one step at a time. */
  method OptimizeImage(input: Input, distDir: Path, options: OptimizeOptions, world: World)
    returns (run: ImageRun)
    ensures run == ImagePlan(input, distDir, options, world)
  {
    var placed := Place(input, distDir, world);
    if placed.Err? {
      return ImageRun(Err(placed.error), []);
    }
    var out := placed.value.0.output;
    var originalPath := Display(placed.value.0.relative);
    var originalSize := placed.value.1;
    var results: seq<OptimizeResult> := [];
    var calls: seq<EncodeCall> := [];
    if options.optimizeImages {
      var ext := Extension(input.entry.path);
      if ext.None? {
        return ImageRun(Err(NoExtension(input.entry.path)), calls);
      }
      var lowered := Lower(ext.value);
      var encoder := OptimizerFor(lowered, options);
      if encoder.None? {
        return ImageRun(Err(UnsupportedExtension(lowered)), calls);
      }
      var call := EncodeCall(encoder.value, input.entry.path, out);
      calls := calls + [call];
      var failure := world.encode(call);
      if failure.Some? {
        return ImageRun(Err(EncoderFailed(failure.value)), calls);
      }
      if out !in world.sizes {
        return ImageRun(Err(MetadataFailed(out)), calls);
      }
      results := results + [OptimizeResult(RelativePathStr(out, distDir), originalPath, originalSize, world.sizes[out])];
      assert OptimizeStep(input, placed.value.0, originalSize, distDir, options, world).calls == [call];
      assert world.encode(call) == None;
      assert call.output in world.sizes;
      assert results == [OptimizeResult(RelativePathStr(out, distDir), originalPath, originalSize, world.sizes[out])];
      assert EncodeAndMeasure(call, distDir, originalPath, originalSize, world).result == Ok(results);
    }
    ghost var opt := OptimizeStep(input, placed.value.0, originalSize, distDir, options, world);
    assert opt.result == Ok(results) && opt.calls == calls;
    if options.generateWebp {
      var source := if options.webpFromOptimized && options.optimizeImages then out else input.entry.path;
      var webpOut := WithExtension(out, "webp");
      var call := EncodeCall(WebpEncoder(options.webpQuality), source, webpOut);
      calls := calls + [call];
      var failure := world.encode(call);
      if failure.Some? {
        return ImageRun(Err(EncoderFailed(failure.value)), calls);
      }
      if webpOut !in world.sizes {
        return ImageRun(Err(MetadataFailed(webpOut)), calls);
      }
      results := results + [OptimizeResult(RelativePathStr(webpOut, distDir), originalPath, originalSize, world.sizes[webpOut])];
    }
    ghost var webp := WebpStep(input, placed.value.0, originalSize, distDir, options, world);
    assert webp.result.Ok? && results == opt.result.value + webp.result.value;
    assert calls == opt.calls + webp.calls;
    return ImageRun(Ok(results), calls);
  }

  /** The number of steps asked for: optimisation and WebP generation. */
  function StepCount(options: OptimizeOptions): nat {
    (if options.optimizeImages then 1 else 0) + (if options.generateWebp then 1 else 0)
  }

  /** A successful image gives one result per requested step, optimised file
      first, each made by exactly one encoder call; all of them carry the image's
      relative path and its size, and name the file written. */
  lemma ImagePlanResults(input: Input, distDir: Path, options: OptimizeOptions, world: World)
    requires ImagePlan(input, distDir, options, world).result.Ok?
    ensures Place(input, distDir, world).Ok?
    ensures var run := ImagePlan(input, distDir, options, world);
      var rs := run.result.value;
      var placed := Place(input, distDir, world).value;
      && |rs| == StepCount(options)
      && |run.calls| == |rs|
      && (forall i :: 0 <= i < |rs| ==>
            && rs[i].originalPath == Display(placed.0.relative)
            && rs[i].originalSize == placed.1
            && rs[i].path == RelativePathStr(run.calls[i].output, distDir)
            && rs[i].finalSize == world.sizes[run.calls[i].output]
            && world.encode(run.calls[i]) == None)
      && (options.optimizeImages ==> run.calls[0].input == input.entry.path && run.calls[0].output == placed.0.output)
      && (options.generateWebp ==>
            run.calls[|rs| - 1] == EncodeCall(WebpEncoder(options.webpQuality), WebpSource(input, placed.0, options),
                                              WithExtension(placed.0.output, "webp")))
  {
    var pr := Place(input, distDir, world);
    assert pr.Ok?;
    var pl, size := pr.value.0, pr.value.1;
    var opt := OptimizeStep(input, pl, size, distDir, options, world);
    var webp := WebpStep(input, pl, size, distDir, options, world);
    assert opt.result.Ok? && webp.result.Ok?;
    if options.optimizeImages {
      assert Extension(input.entry.path).Some?;
      var ext := Lower(Extension(input.entry.path).value);
      assert OptimizerFor(ext, options).Some?;
      var call := EncodeCall(OptimizerFor(ext, options).value, input.entry.path, pl.output);
      assert opt == EncodeAndMeasure(call, distDir, Display(pl.relative), size, world);
      MeasuredCall(call, distDir, Display(pl.relative), size, world);
    } else {
      assert opt == ImageRun(Ok([]), []);
    }
    if options.generateWebp {
      var call := EncodeCall(WebpEncoder(options.webpQuality), WebpSource(input, pl, options),
                             WithExtension(pl.output, "webp"));
      assert webp == EncodeAndMeasure(call, distDir, Display(pl.relative), size, world);
      MeasuredCall(call, distDir, Display(pl.relative), size, world);
    } else {
      assert webp == ImageRun(Ok([]), []);
    }
    assert ImagePlan(input, distDir, options, world) ==
      ImageRun(Ok(opt.result.value + webp.result.value), opt.calls + webp.calls);
  }

  /** A call that succeeds and whose output has a size gives one result, naming
      that output and its size. */
  lemma MeasuredCall(call: EncodeCall, distDir: Path, originalPath: string, originalSize: nat, world: World)
    requires EncodeAndMeasure(call, distDir, originalPath, originalSize, world).result.Ok?
    ensures world.encode(call) == None && call.output in world.sizes
    ensures EncodeAndMeasure(call, distDir, originalPath, originalSize, world) ==
      ImageRun(Ok([OptimizeResult(RelativePathStr(call.output, distDir), originalPath, originalSize,
                                  world.sizes[call.output])]), [call])
  {
  }

  /** An image whose lower-cased extension is not an image extension fails before
      any encoder runs, naming that extension, when optimisation is asked for. */
  lemma UnsupportedExtensionFails(input: Input, distDir: Path, options: OptimizeOptions, world: World, ext: string)
    requires Place(input, distDir, world).Ok? && options.optimizeImages
    requires Extension(input.entry.path) == Some(ext) && Lower(ext) !in ImageExtensions
    ensures ImagePlan(input, distDir, options, world) == ImageRun(Err(UnsupportedExtension(Lower(ext))), [])
    ensures Message(ImagePlan(input, distDir, options, world).result.error) == "Unsupported extension: " + Quoted(Lower(ext))
  {
  }

  /** The optimiser follows the extension and the options: MozJPEG at the JPEG
      quality for "jpg" and "jpeg", imagequant at the PNG8 quality when PNG8 is
      on, oxipng otherwise. */
  lemma EncoderChoice(input: Input, distDir: Path, options: OptimizeOptions, world: World, ext: string)
    requires Place(input, distDir, world).Ok? && options.optimizeImages
    requires Extension(input.entry.path) == Some(ext) && Lower(ext) in ImageExtensions
    ensures var run := ImagePlan(input, distDir, options, world);
      && |run.calls| >= 1
      && run.calls[0].encoder ==
           (if Lower(ext) == "png" then (if options.usePng8 then Imagequant(options.png8Quality) else Oxipng)
            else Mozjpeg(options.jpgQuality))
  {
    var placed := Place(input, distDir, world).value;
    var opt := OptimizeStep(input, placed.0, placed.1, distDir, options, world);
    var enc := OptimizerFor(Lower(ext), options);
    assert enc.Some?;
    assert opt.calls == [EncodeCall(enc.value, input.entry.path, placed.0.output)];
  }

  /** The WebP encoder reads the optimised file only when both optimisation and
      "from optimised" are on; with optimisation off it reads the original, whatever
      the other option says. */
  lemma WebpReadsOriginalUnlessOptimized(input: Input, distDir: Path, options: OptimizeOptions, world: World)
    requires Place(input, distDir, world).Ok? && options.generateWebp && !options.optimizeImages
    ensures var run := ImagePlan(input, distDir, options, world);
      run.calls == [EncodeCall(WebpEncoder(options.webpQuality), input.entry.path,
                               WithExtension(Place(input, distDir, world).value.0.output, "webp"))]
  {
  }

  /** A selected file lands directly in the output directory under its own name;
      an image below a selected directory keeps its path from that directory's
      parent, so the directory's own name is the first component. */
  lemma PlacementOfImages(input: Input, world: World)
    requires input.root.parts != []
    ensures input.root in world.files ==>
      RelativeToRoot(input, world) == Ok(Path(false, [input.root.parts[|input.root.parts| - 1]]))
    ensures input.root !in world.files ==>
      var parent := Parent(input.root).value;
      (RelativeToRoot(input, world).Ok? <==> StripPrefix(input.entry.path, parent).Some?) &&
      (RelativeToRoot(input, world).Ok? ==>
        && Join(parent, RelativeToRoot(input, world).value) == input.entry.path
        && Display(RelativeToRoot(input, world).value) == RelativePathStr(input.entry.path, parent))
  {
  }

  /** What the batch records for one image: its results, or a single error
      against the image's path from the selected path's parent. */
  function ToOutcomes(result: Result<seq<OptimizeResult>, ImageError>, errorPath: string): (os: seq<Outcome>)
    ensures result.Ok? ==> |os| == |result.value| && forall i :: 0 <= i < |os| ==> os[i] == Outcome.Result(result.value[i])
    ensures result.Err? ==> os == [Outcome.Error(errorPath, Message(result.error))]
  {
    match result
    case Ok(rs) => seq(|rs|, i requires 0 <= i < |rs| => Outcome.Result(rs[i]))
    case Err(e) => [Outcome.Error(errorPath, Message(e))]
  }

  /** The path an image is reported under in errors and progress events. */
  function ReportedPath(input: Input): string
    requires Parent(input.root).Some?
  {
    RelativePathStr(input.entry.path, Parent(input.root).value)
  }

  function EntryOutcomes(input: Input, distDir: Path, options: OptimizeOptions, world: World): seq<Outcome>
    requires Parent(input.root).Some?
  {
    ToOutcomes(ImagePlan(input, distDir, options, world).result, ReportedPath(input))
  }

  /** An image gives at most two outcomes; a failure anywhere, even after the
      optimised file was written, gives exactly one error and no result. */
  lemma EntryOutcomesShape(input: Input, distDir: Path, options: OptimizeOptions, world: World)
    requires Parent(input.root).Some?
    ensures var run := ImagePlan(input, distDir, options, world);
      var os := EntryOutcomes(input, distDir, options, world);
      && (run.result.Err? ==> os == [Outcome.Error(ReportedPath(input), Message(run.result.error))])
      && (run.result.Ok? ==> |os| == StepCount(options) && forall o :: o in os ==> o.Result?)
  {
    var run := ImagePlan(input, distDir, options, world);
    if run.result.Ok? {
      ImagePlanResults(input, distDir, options, world);
    }
  }

  /** Each image gives one or two outcomes when at least one step is asked for
      (a step is asked for unless both passes are off), and never more than two. */
  lemma {:induction false} EntriesOutcomesCount(root: Path, entries: seq<DirEntry>, distDir: Path,
                                                options: OptimizeOptions, world: World)
    requires Parent(root).Some?
    ensures |EntriesOutcomes(root, entries, distDir, options, world)| <= 2 * |entries|
    ensures StepCount(options) >= 1 ==> |EntriesOutcomes(root, entries, distDir, options, world)| >= |entries|
  {
    if entries != [] {
      EntriesOutcomesCount(root, entries[..|entries| - 1], distDir, options, world);
      EntryOutcomesShape(Input(root, entries[|entries| - 1]), distDir, options, world);
    }
  }

  // ---------------------------------------------------------------------------
  // Choosing the output directory

  const DistDirName := "opt"

  /** The k-th name tried: "opt", then "opt_1", "opt_2", ... */
  function Candidate(distDir: Path, k: nat): Path
  {
    Join(distDir, Path(false, [if k == 0 then DistDirName else DistDirName + "_" + NatToString(k)]))
  }

  lemma CandidateInjective(distDir: Path, j: nat, k: nat)
    requires Candidate(distDir, j) == Candidate(distDir, k)
    ensures j == k
  {
    var n := |distDir.parts|;
    var a := Candidate(distDir, j).parts[n];
    var b := Candidate(distDir, k).parts[n];
    assert a == b;
    if j != 0 && k != 0 {
      assert a[4..] == NatToString(j);
      assert b[4..] == NatToString(k);
      NatToStringInjective(j, k);
    }
  }

  function CandidatesBelow(distDir: Path, k: nat): set<Path> {
    set j | 0 <= j < k :: Candidate(distDir, j)
  }

  lemma {:induction false} CandidatesBelowSize(distDir: Path, k: nat)
    ensures |CandidatesBelow(distDir, k)| == k
  {
    if k > 0 {
      CandidatesBelowSize(distDir, k - 1);
      CandidatesBelowStep(distDir, k - 1);
      if Candidate(distDir, k - 1) in CandidatesBelow(distDir, k - 1) {
        var j :| 0 <= j < k - 1 && Candidate(distDir, j) == Candidate(distDir, k - 1);
        CandidateInjective(distDir, j, k - 1);
      }
    } else {
      assert CandidatesBelow(distDir, k) == {};
    }
  }

  lemma CandidatesBelowStep(distDir: Path, k: nat)
    ensures CandidatesBelow(distDir, k + 1) == CandidatesBelow(distDir, k) + {Candidate(distDir, k)}
  {
    var prev, next := CandidatesBelow(distDir, k), CandidatesBelow(distDir, k + 1);
    forall p | p in next
      ensures p in prev + {Candidate(distDir, k)}
    {
      var j :| 0 <= j < k + 1 && p == Candidate(distDir, j);
      if j < k {
        assert Candidate(distDir, j) in prev;
      }
    }
    forall p | p in prev
      ensures p in next
    {
      var j :| 0 <= j < k && p == Candidate(distDir, j);
      assert Candidate(distDir, j) in next;
    }
    assert Candidate(distDir, k) in next;
  }

  /** Only finitely many names can be taken: the first `k` names all existing
      means at least `k` paths exist. */
  lemma TakenBound(distDir: Path, existing: set<Path>, k: nat)
    requires forall j :: 0 <= j < k ==> Candidate(distDir, j) in existing
    ensures k <= |existing|
  {
    CandidatesBelowSize(distDir, k);
    SubsetSize(CandidatesBelow(distDir, k), existing);
  }

  lemma {:induction false} SubsetSize<T>(a: set<T>, b: set<T>)
    requires a <= b
    ensures |a| <= |b|
  {
    if a != {} {
      var x :| x in a;
      SubsetSize(a - {x}, b - {x});
    }
  }

  /** The first name from the k-th on that does not exist. */
  function FreeIndexFrom(distDir: Path, existing: set<Path>, k: nat): (r: nat)
    requires forall j :: 0 <= j < k ==> Candidate(distDir, j) in existing
    ensures k <= r && Candidate(distDir, r) !in existing
    ensures forall j :: 0 <= j < r ==> Candidate(distDir, j) in existing
    decreases |existing| - k
  {
    if Candidate(distDir, k) !in existing then k
    else
      TakenBound(distDir, existing, k + 1);
      FreeIndexFrom(distDir, existing, k + 1)
  }

  /** The output directory `create_dist_dir` settles on. */
  function DistDirPath(distDir: Path, existing: set<Path>): (d: Path)
    ensures Parent(d) == Some(distDir)
  {
    Candidate(distDir, FreeIndexFrom(distDir, existing, 0))
  }

  /** The chosen directory did not exist, is "opt" when that is free, and every
      name tried before it was taken. */
  lemma DistDirIsFirstFree(distDir: Path, existing: set<Path>)
    ensures DistDirPath(distDir, existing) !in existing
    ensures Candidate(distDir, 0) !in existing ==> DistDirPath(distDir, existing) == Join(distDir, Path(false, ["opt"]))
    ensures exists k: nat :: DistDirPath(distDir, existing) == Candidate(distDir, k) &&
                             (forall j :: 0 <= j < k ==> Candidate(distDir, j) in existing)
  {
    var k := FreeIndexFrom(distDir, existing, 0);
    assert DistDirPath(distDir, existing) == Candidate(distDir, k);
  }

  /** `create_dist_dir`: the names are tried in turn until one does not exist,
      which is then created. */
  method CreateDistDir(distDir: Path, world: World) returns (r: Result<Path, string>)
    ensures var chosen := DistDirPath(distDir, world.existing);
      r == if world.createDirOk(chosen) then Ok(chosen) else Err("Failed to create " + Quoted(Display(chosen)))
  {
    var path := Join(distDir, Path(false, [DistDirName]));
    var i := 1;
    while path in world.existing
      invariant i >= 1
      invariant path == Candidate(distDir, i - 1)
      invariant forall j :: 0 <= j < i - 1 ==> Candidate(distDir, j) in world.existing
      invariant FreeIndexFrom(distDir, world.existing, i - 1) == FreeIndexFrom(distDir, world.existing, 0)
      decreases |world.existing| - i
    {
      TakenBound(distDir, world.existing, i);
      path := Join(distDir, Path(false, [DistDirName + "_" + NatToString(i)]));
      i := i + 1;
    }
    if !world.createDirOk(path) {
      return Err("Failed to create " + Quoted(Display(path)));
    }
    return Ok(path);
  }

  // ---------------------------------------------------------------------------
  // The commands

  /** The selected paths must each have a parent: the code unwraps it. */
  predicate AllHaveParents(paths: seq<Path>) {
    forall i :: 0 <= i < |paths| ==> Parent(paths[i]).Some?
  }

  /** The outcomes of the images of one selected path, in walk order. */
  function EntriesOutcomes(root: Path, entries: seq<DirEntry>, distDir: Path,
                           options: OptimizeOptions, world: World): seq<Outcome>
    requires Parent(root).Some?
  {
    if entries == [] then []
    else EntriesOutcomes(root, entries[..|entries| - 1], distDir, options, world)
         + EntryOutcomes(Input(root, entries[|entries| - 1]), distDir, options, world)
  }

  /** The outcomes of all images, selected path by selected path. */
  function PathsOutcomes(paths: seq<Path>, distDir: Path, options: OptimizeOptions, world: World): seq<Outcome>
    requires AllHaveParents(paths)
  {
    if paths == [] then []
    else
      var root := paths[|paths| - 1];
      PathsOutcomes(paths[..|paths| - 1], distDir, options, world)
      + EntriesOutcomes(root, ImageEntries(world.walk(root)), distDir, options, world)
  }

  /** The progress events of the images of one selected path. */
  function EntriesProgress(root: Path, entries: seq<DirEntry>): (ps: seq<string>)
    requires Parent(root).Some?
    ensures |ps| == |entries|
    ensures forall i :: 0 <= i < |entries| ==> ps[i] == ReportedPath(Input(root, entries[i]))
  {
    seq(|entries|, i requires 0 <= i < |entries| => ReportedPath(Input(root, entries[i])))
  }

  function PathsProgress(paths: seq<Path>, world: World): seq<string>
    requires AllHaveParents(paths)
  {
    if paths == [] then []
    else
      var root := paths[|paths| - 1];
      PathsProgress(paths[..|paths| - 1], world) + EntriesProgress(root, ImageEntries(world.walk(root)))
  }

  /** The number of images below the selected paths. */
  function ImageCount(paths: seq<Path>, world: World): nat {
    if paths == [] then 0
    else ImageCount(paths[..|paths| - 1], world) + |ImageEntries(world.walk(paths[|paths| - 1]))|
  }

  /** One progress event per image, whatever became of it. */
  lemma {:induction false} ProgressCountsImages(paths: seq<Path>, world: World)
    requires AllHaveParents(paths)
    ensures |PathsProgress(paths, world)| == ImageCount(paths, world)
  {
    if paths != [] {
      ProgressCountsImages(paths[..|paths| - 1], world);
    }
  }

  /** Over the whole batch: at most two outcomes per image found, and at least
      one per image when a step is asked for (with both off, an image that
      succeeds gives none). */
  lemma {:induction false} PathsOutcomesCount(paths: seq<Path>, distDir: Path, options: OptimizeOptions, world: World)
    requires AllHaveParents(paths)
    ensures |PathsOutcomes(paths, distDir, options, world)| <= 2 * ImageCount(paths, world)
    ensures StepCount(options) >= 1 ==> |PathsOutcomes(paths, distDir, options, world)| >= ImageCount(paths, world)
  {
    if paths != [] {
      var root := paths[|paths| - 1];
      PathsOutcomesCount(paths[..|paths| - 1], distDir, options, world);
      EntriesOutcomesCount(root, ImageEntries(world.walk(root)), distDir, options, world);
    }
  }

  /** `get_path_from_result`: the key the batch is sorted by. */
  function OutcomeKey(o: Outcome): (k: string)
    ensures o.Result? ==> k == Lower(o.value.originalPath)
    ensures o.Error? ==> k == Lower(o.path)
    ensures Lower(k) == k
  {
    match o
    case Result(v) => LowerIdempotent(v.originalPath); Lower(v.originalPath)
    case Error(path, _) => LowerIdempotent(path); Lower(path)
  }

  /** The outcomes of an image below a selected directory all sort under the
      path it is reported under, so the results and the error of one image
      share a key. */
  lemma OutcomesShareKey(input: Input, distDir: Path, options: OptimizeOptions, world: World)
    requires Parent(input.root).Some? && input.root !in world.files
    ensures forall o :: o in EntryOutcomes(input, distDir, options, world) ==>
      OutcomeKey(o) == Lower(ReportedPath(input))
  {
    var run := ImagePlan(input, distDir, options, world);
    if run.result.Ok? {
      ImagePlanResults(input, distDir, options, world);
      PlacementOfImages(input, world);
    }
  }

  /** The same for a selected file, which the walk yields as its only entry: its
      results carry its name as the original path, and that name is also the
      path it is reported under. */
  lemma FileOutcomesShareKey(input: Input, distDir: Path, options: OptimizeOptions, world: World)
    requires Parent(input.root).Some? && input.root in world.files && input.entry.path == input.root
    ensures forall o :: o in EntryOutcomes(input, distDir, options, world) ==>
      OutcomeKey(o) == Lower(ReportedPath(input))
  {
    var parent := Parent(input.root).value;
    var name := Path(false, [input.root.parts[|input.root.parts| - 1]]);
    assert input.root == Join(parent, name);
    RelativeOfJoin(parent, name);
    var run := ImagePlan(input, distDir, options, world);
    if run.result.Ok? {
      ImagePlanResults(input, distDir, options, world);
      PlacementOfImages(input, world);
    }
  }

  /** The images of one selected path, optimised in walk order. */
  method OptimizeEntries(root: Path, entries: seq<DirEntry>, dest: Path, options: OptimizeOptions, world: World)
    returns (outcomes: seq<Outcome>, events: seq<string>)
    requires Parent(root).Some?
    ensures outcomes == EntriesOutcomes(root, entries, dest, options, world)
    ensures events == EntriesProgress(root, entries)
  {
    outcomes, events := [], [];
    var j := 0;
    while j < |entries|
      invariant 0 <= j <= |entries|
      invariant outcomes == EntriesOutcomes(root, entries[..j], dest, options, world)
      invariant events == EntriesProgress(root, entries[..j])
    {
      var input := Input(root, entries[j]);
      var run := OptimizeImage(input, dest, options, world);
      assert ToOutcomes(run.result, ReportedPath(input)) == EntryOutcomes(input, dest, options, world);
      outcomes := outcomes + ToOutcomes(run.result, ReportedPath(input));
      events := events + [ReportedPath(input)];
      assert entries[..j + 1][..j] == entries[..j];
      j := j + 1;
    }
    assert entries[..j] == entries;
  }

  /** `optimize`: the output directory is created first; if that fails nothing
      else happens. Otherwise every image below every selected path is optimised,
      one progress event is emitted per image, and the outcomes are returned
      stably sorted by their lower-cased paths, so outcomes with the same path
      stay in the order they were produced. */
  method OptimizeCommand(paths: seq<Path>, distDir: Path, options: OptimizeOptions, world: World)
    returns (r: Result<seq<Outcome>, string>, progress: seq<string>)
    requires AllHaveParents(paths)
    ensures var dest := DistDirPath(distDir, world.existing);
      if !world.createDirOk(dest) then
        r == Err("Failed to create " + Quoted(Display(dest))) && progress == []
      else
        && r.Ok?
        && StablySortedFrom(r.value, PathsOutcomes(paths, dest, options, world), OutcomeKey)
        && progress == PathsProgress(paths, world)
  {
    var created := CreateDistDir(distDir, world);
    if created.Err? {
      return Err(created.error), [];
    }
    var dest := created.value;
    var all: seq<Outcome> := [];
    progress := [];
    var i := 0;
    while i < |paths|
      invariant 0 <= i <= |paths|
      invariant all == PathsOutcomes(paths[..i], dest, options, world)
      invariant progress == PathsProgress(paths[..i], world)
    {
      var root := paths[i];
      var outcomes, events := OptimizeEntries(root, ImageEntries(world.walk(root)), dest, options, world);
      all := all + outcomes;
      progress := progress + events;
      assert paths[..i + 1][..i] == paths[..i];
      i := i + 1;
    }
    assert paths[..i] == paths;
    var a := new Outcome[|all|](k requires 0 <= k < |all| => all[k]);
    assert a[..] == all;
    SortBy(a, OutcomeKey);
    return Ok(a[..]), progress;
  }

  /** The target images of one selected path: each image's reported path and size. */
  function EntriesTargets(root: Path, entries: seq<DirEntry>, world: World): (ts: seq<TargetImage>)
    requires Parent(root).Some?
    requires forall e :: e in entries ==> e.path in world.sizes
    ensures |ts| == |entries|
    ensures forall i :: 0 <= i < |entries| ==>
      ts[i] == TargetImage(ReportedPath(Input(root, entries[i])), world.sizes[entries[i].path])
  {
    seq(|entries|, i requires 0 <= i < |entries| =>
      TargetImage(ReportedPath(Input(root, entries[i])), world.sizes[entries[i].path]))
  }

  /** Every image below the selected paths has a size: the code unwraps it. */
  predicate AllImagesHaveSizes(paths: seq<Path>, world: World) {
    forall i, e :: 0 <= i < |paths| && e in ImageEntries(world.walk(paths[i])) ==> e.path in world.sizes
  }

  function PathsTargets(paths: seq<Path>, world: World): (ts: seq<TargetImage>)
    requires AllHaveParents(paths) && AllImagesHaveSizes(paths, world)
    ensures forall t :: t in ts ==> t.size in world.sizes.Values
  {
    if paths == [] then []
    else
      var root := paths[|paths| - 1];
      assert AllImagesHaveSizes(paths[..|paths| - 1], world);
      PathsTargets(paths[..|paths| - 1], world) + EntriesTargets(root, ImageEntries(world.walk(root)), world)
  }

  /** `t` is what `get_target_images` makes of the image `e` below `root`. */
  predicate TargetOf(root: Path, e: DirEntry, world: World, t: TargetImage) {
    && Parent(root).Some? && e.path in world.sizes
    && t == TargetImage(ReportedPath(Input(root, e)), world.sizes[e.path])
  }

  /** The targets of one selected path are exactly those of its images. */
  lemma EntriesTargetsMembers(root: Path, es: seq<DirEntry>, world: World, t: TargetImage)
    requires Parent(root).Some?
    requires forall e :: e in es ==> e.path in world.sizes
    ensures t in EntriesTargets(root, es, world) <==> exists e :: e in es && TargetOf(root, e, world, t)
  {
    var ts := EntriesTargets(root, es, world);
    if t in ts {
      var k :| 0 <= k < |ts| && ts[k] == t;
      assert es[k] in es && TargetOf(root, es[k], world, t);
    }
    if exists e :: e in es && TargetOf(root, e, world, t) {
      var e :| e in es && TargetOf(root, e, world, t);
      var k :| 0 <= k < |es| && es[k] == e;
      assert ts[k] == t;
    }
  }

  /** `PathsTargets` unfolded once: the last path's targets come after the others'. */
  lemma PathsTargetsLast(paths: seq<Path>, world: World)
    requires AllHaveParents(paths) && AllImagesHaveSizes(paths, world) && paths != []
    ensures AllHaveParents(paths[..|paths| - 1]) && AllImagesHaveSizes(paths[..|paths| - 1], world)
    ensures forall d :: d in ImageEntries(world.walk(paths[|paths| - 1])) ==> d.path in world.sizes
    ensures PathsTargets(paths, world) ==
      PathsTargets(paths[..|paths| - 1], world) +
      EntriesTargets(paths[|paths| - 1], ImageEntries(world.walk(paths[|paths| - 1])), world)
  {
    var n := |paths|;
    SizesOfPrefix(paths, world, n - 1);
    SizesOfLast(paths, world);
  }

  /** A prefix of the selected paths keeps the sizes of its images. */
  lemma SizesOfPrefix(paths: seq<Path>, world: World, n: nat)
    requires AllImagesHaveSizes(paths, world) && n <= |paths|
    ensures AllImagesHaveSizes(paths[..n], world)
  {
    forall i, e | 0 <= i < n && e in ImageEntries(world.walk(paths[..n][i]))
      ensures e.path in world.sizes
    {
      assert paths[..n][i] == paths[i];
    }
  }

  /** The images of the last selected path have sizes. */
  lemma SizesOfLast(paths: seq<Path>, world: World)
    requires AllImagesHaveSizes(paths, world) && paths != []
    ensures forall d :: d in ImageEntries(world.walk(paths[|paths| - 1])) ==> d.path in world.sizes
  {
    forall d | d in ImageEntries(world.walk(paths[|paths| - 1]))
      ensures d.path in world.sizes
    {
      assert 0 <= |paths| - 1 < |paths|;
    }
  }

  /** An image below the last selected path gives a collected target. */
  lemma LastPathTargets(paths: seq<Path>, world: World, e: DirEntry, t: TargetImage)
    requires AllHaveParents(paths) && AllImagesHaveSizes(paths, world) && paths != []
    requires e in ImageEntries(world.walk(paths[|paths| - 1])) && TargetOf(paths[|paths| - 1], e, world, t)
    ensures t in PathsTargets(paths, world)
  {
    var root := paths[|paths| - 1];
    PathsTargetsLast(paths, world);
    EntriesTargetsMembers(root, ImageEntries(world.walk(root)), world, t);
  }

  /** The collecting direction of `PathsTargetsMembers`, for one given image. */
  lemma {:induction false} PathsTargetsComplete(paths: seq<Path>, world: World, i: int, e: DirEntry, t: TargetImage)
    requires AllHaveParents(paths) && AllImagesHaveSizes(paths, world)
    requires 0 <= i < |paths| && e in ImageEntries(world.walk(paths[i])) && TargetOf(paths[i], e, world, t)
    ensures t in PathsTargets(paths, world)
  {
    var n := |paths|;
    if i < n - 1 {
      var init := paths[..n - 1];
      PathsTargetsLast(paths, world);
      assert init[i] == paths[i];
      PathsTargetsComplete(init, world, i, e, t);
    } else {
      LastPathTargets(paths, world, e, t);
    }
  }

  /** A target is collected exactly when some image below some selected path is
      reported under its path and has its size. */
  lemma PathsTargetsMembers(paths: seq<Path>, world: World, t: TargetImage)
    requires AllHaveParents(paths) && AllImagesHaveSizes(paths, world)
    ensures t in PathsTargets(paths, world) <==>
      exists i, e :: 0 <= i < |paths| && e in ImageEntries(world.walk(paths[i])) && TargetOf(paths[i], e, world, t)
  {
    if t in PathsTargets(paths, world) {
      PathsTargetsSound(paths, world, t);
    }
    if exists i, e :: 0 <= i < |paths| && e in ImageEntries(world.walk(paths[i])) && TargetOf(paths[i], e, world, t) {
      var i, e :| 0 <= i < |paths| && e in ImageEntries(world.walk(paths[i])) && TargetOf(paths[i], e, world, t);
      PathsTargetsComplete(paths, world, i, e, t);
    }
  }

  /** The other direction of `PathsTargetsMembers`: a collected target comes from
      an image below one of the selected paths. */
  lemma {:induction false} PathsTargetsSound(paths: seq<Path>, world: World, t: TargetImage)
    requires AllHaveParents(paths) && AllImagesHaveSizes(paths, world)
    requires t in PathsTargets(paths, world)
    ensures exists i, e :: 0 <= i < |paths| && e in ImageEntries(world.walk(paths[i])) && TargetOf(paths[i], e, world, t)
  {
    var n := |paths|;
    var init, root := paths[..n - 1], paths[n - 1];
    PathsTargetsLast(paths, world);
    if t in PathsTargets(init, world) {
      PathsTargetsSound(init, world, t);
      var i, e :| 0 <= i < |init| && e in ImageEntries(world.walk(init[i])) && TargetOf(init[i], e, world, t);
      assert init[i] == paths[i];
      assert 0 <= i < |paths| && e in ImageEntries(world.walk(paths[i])) && TargetOf(paths[i], e, world, t);
    } else {
      var es := ImageEntries(world.walk(root));
      EntriesTargetsMembers(root, es, world, t);
      var e :| e in es && TargetOf(root, e, world, t);
      assert 0 <= n - 1 < |paths| && e in ImageEntries(world.walk(paths[n - 1])) && TargetOf(paths[n - 1], e, world, t);
    }
  }

  /** One target image per image found. */
  lemma {:induction false} TargetsCountImages(paths: seq<Path>, world: World)
    requires AllHaveParents(paths) && AllImagesHaveSizes(paths, world)
    ensures |PathsTargets(paths, world)| == ImageCount(paths, world)
  {
    if paths != [] {
      assert AllImagesHaveSizes(paths[..|paths| - 1], world);
      TargetsCountImages(paths[..|paths| - 1], world);
    }
  }

  function TargetKey(t: TargetImage): string {
    Lower(t.path)
  }

  /** `get_target_images`: all images below the selected paths, stably sorted
      by their lower-cased reported paths. */
  method GetTargetImages(paths: seq<Path>, world: World) returns (images: seq<TargetImage>)
    requires AllHaveParents(paths) && AllImagesHaveSizes(paths, world)
    ensures StablySortedFrom(images, PathsTargets(paths, world), TargetKey)
  {
    var collected := PathsTargets(paths, world);
    var a := new TargetImage[|collected|](k requires 0 <= k < |collected| => collected[k]);
    assert a[..] == collected;
    SortBy(a, TargetKey);
    images := a[..];
  }
}
