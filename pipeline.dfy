/** What one call of `m5Photo::resizeImage` does, as a function of the
    object's fields before the call, the call's arguments and what the
    filesystem and the GD library answer: the fields afterwards, the
    external operations attempted in order, the error reported (if any)
    and the boolean result. */
module Pipeline {
  import opened PhpValues
  import opened Dimensions

  /** The MIME type of the one format the class handles. */
  const Jpeg: string := "image/jpeg"

  /** Where the black and white filter stands: `use`, and `contrast` once
      `setBWFilter` has set it (the initial array holds only `use`). */
  datatype BwFilter = BwFilter(use: Value, contrast: Option<Value>)

  /** The initial `bw_filter`: `array("use" => false)`. */
  const NoFilter: BwFilter := BwFilter(Bool(false), None)

  /** A decoded image has at least one pixel on each side. */
  type Pos = n: int | n >= 1 witness 1

  /** The answers of the outside world to one call: the MIME type
      `setImageInfo` finds for the source (`None` when `exif_imagetype`
      fails), the filesystem checks, and the success of each GD call with
      the decoded dimensions. */
  datatype Env = Env(
    mimeType: Option<string>,
    sourceExists: bool,
    readable: bool,
    writable: bool,
    decodes: bool,
    width: Pos,
    height: Pos,
    allocates: bool,
    resamples: bool,
    greyscales: bool,
    contrasts: bool,
    encodes: bool)

  /** The arguments of `resizeImage`; `quality` is `Null` when omitted. */
  datatype Call = Call(file: string, target: string, width: int, height: int, quality: Value)

  /** An operation on the filesystem or the GD library, in the order the
      class may attempt them, with the values the class passes to it:
      the new size to `ImageCreateTrueColor`, the new and the source size
      to `imagecopyresampled`, `bw_filter['contrast']` to the contrast
      filter (`None` when the key was never set) and the target path and
      `jpg_quality` to `imagejpeg`. */
  datatype Op =
    | CheckExists | CheckReadable | CheckWritable
    | Decode
    | Allocate(size: Dims)
    | Resample(size: Dims, from: Dims)
    | Greyscale
    | Contrast(level: Option<Value>)
    | Encode(target: string, quality: Value)

  /** The failure handed to `handleException`, one per failing step. */
  datatype Error =
    | SourceMissing | SourceUnreadable | TargetUnwritable
    | DecodeFailed | UnsupportedMime | SourceTooSmall
    | AllocateFailed | ResampleFailed | FilterFailed | EncodeFailed
    | FilterUnavailable | TypeUnknown

  /** The fields of an `m5Photo` object; `None` for a field not yet set. */
  datatype PhotoState = PhotoState(
    sourceFile: Option<string>,
    targetFile: Option<string>,
    mimeType: Option<string>,
    sourceWidth: Option<int>,
    sourceHeight: Option<int>,
    resizeToWidth: Option<int>,
    resizeToHeight: Option<int>,
    resizeIfSmaller: Value,
    jpgQuality: Value,
    bwFilter: BwFilter)

  /** The result of one call. `report` is the error handed to
      `handleException`, if one was. */
  datatype Outcome = Outcome(state: PhotoState, ops: seq<Op>, report: Option<Error>, result: bool)
  {
    /** The reported error as a list of at most one. */
    function Reported(): seq<Error>
    {
      if report.Some? then [report.value] else []
    }
  }

  /** Some steps of a call: the operations attempted, up to the first that
      failed, and the error of that one. */
  datatype Steps = Steps(ops: seq<Op>, failure: Option<Error>)
  {
    /** The error as a list of at most one. */
    function Reported(): seq<Error>
    {
      if failure.Some? then [failure.value] else []
    }
  }

  /** `mime_type` after `setImageInfo`: the type found, or the previous
      value when none was found. */
  function MimeTypeAfter(previous: Option<string>, env: Env): Option<string>
  {
    if env.mimeType.Some? then env.mimeType else previous
  }

  /** The error `setImageInfo` hands to `handleException`, as a list of at
      most one: one exactly when no type was found. */
  function ImageInfoReported(env: Env): seq<Error>
  {
    if env.mimeType.None? then [TypeUnknown] else []
  }

  /** `jpg_quality` once `resizeImage` has taken its `quality` argument:
      the argument when one is given, else the previous value. */
  function QualityAfter(previous: Value, quality: Value): Value
  {
    if quality != Null then quality else previous
  }

  /** The fields once `resizeImage` has copied its arguments into them,
      before anything is checked: the file names, the requested size, the
      MIME type `setImageInfo` leaves and, when one is given, the quality. */
  function Prepared(s: PhotoState, c: Call, env: Env): PhotoState
  {
    s.(sourceFile := Some(c.file), targetFile := Some(c.target),
       resizeToWidth := Some(c.width), resizeToHeight := Some(c.height),
       mimeType := MimeTypeAfter(s.mimeType, env),
       jpgQuality := QualityAfter(s.jpgQuality, c.quality))
  }

  /** The filesystem checks `resizeImage` makes when all of them pass:
      writability only when source and target are the same path
      (`inPlace`). */
  function PreconditionOps(inPlace: bool): seq<Op>
  {
    [CheckExists, CheckReadable] + (if inPlace then [CheckWritable] else [])
  }

  /** The filesystem checks, in order, up to the first that fails, and the
      error of that one; `inPlace` when source and target are the same path. */
  function FileChecks(inPlace: bool, env: Env): (r: Steps)
    ensures r.failure.None? <==> env.sourceExists && env.readable && (inPlace ==> env.writable)
    ensures r.failure.None? ==> r.ops == PreconditionOps(inPlace)
    ensures r.ops != [] && r.ops <= PreconditionOps(inPlace)
    ensures r.failure.Some? ==> r.failure.value in {SourceMissing, SourceUnreadable, TargetUnwritable}
  {
    if !env.sourceExists then Steps([CheckExists], Some(SourceMissing))
    else if !env.readable then Steps([CheckExists, CheckReadable], Some(SourceUnreadable))
    else if inPlace && !env.writable then
      Steps([CheckExists, CheckReadable, CheckWritable], Some(TargetUnwritable))
    else Steps(PreconditionOps(inPlace), None)
  }

  /** The upscale guard: refused exactly when `resize_if_smaller === false`
      and the new size exceeds the source on either side. */
  predicate UpscaleRefused(resizeIfSmaller: Value, sw: int, sh: int, r: Dims)
  {
    resizeIfSmaller == Bool(false) && (sh < r.height || sw < r.width)
  }

  /** The filter step: the GD calls it makes and whether it succeeded.
      Contrast is attempted only after a successful greyscale. */
  function FilterStep(f: BwFilter, env: Env): (r: Steps)
    ensures r.failure.None? <==> (Truthy(f.use) ==> env.greyscales && env.contrasts)
    ensures r.ops == [] <==> !Truthy(f.use)
    ensures r.ops <= [Greyscale, Contrast(f.contrast)]
    ensures r.failure.Some? ==> r.failure == Some(FilterFailed)
  {
    if !Truthy(f.use) then Steps([], None)
    else if !env.greyscales then Steps([Greyscale], Some(FilterFailed))
    else Steps([Greyscale, Contrast(f.contrast)], if env.contrasts then None else Some(FilterFailed))
  }

  /** `ImageCreateTrueColor` at `size` succeeds: GD allocates, and both
      sides are at least one pixel, as GD refuses any smaller side. */
  predicate Allocates(env: Env, size: Dims)
  {
    env.allocates && size.width >= 1 && size.height >= 1
  }

  /** The GD steps after the guard, for the new size `size` of a source of
      size `from`, written to `target` at `quality`: allocate, resample, the
      filter, encode, up to the first that fails, and the error of that one. */
  function Render(f: BwFilter, env: Env, size: Dims, from: Dims, target: string, quality: Value): (r: Steps)
    ensures r.failure.None? <==>
              Allocates(env, size) && env.resamples && (Truthy(f.use) ==> env.greyscales && env.contrasts) &&
              env.encodes
    ensures r.failure.None? ==>
              r.ops == [Allocate(size), Resample(size, from)] +
                       (if Truthy(f.use) then [Greyscale, Contrast(f.contrast)] else []) +
                       [Encode(target, quality)]
    ensures r.ops != [] && r.ops[0] == Allocate(size)
  {
    if !Allocates(env, size) then Steps([Allocate(size)], Some(AllocateFailed))
    else if !env.resamples then Steps([Allocate(size), Resample(size, from)], Some(ResampleFailed))
    else
      var filter := FilterStep(f, env);
      var made := [Allocate(size), Resample(size, from)] + filter.ops;
      if filter.failure.Some? then Steps(made, filter.failure)
      else Steps(made + [Encode(target, quality)], if env.encodes then None else Some(EncodeFailed))
  }

  /** `resizeImage` after a successful decode, on the fields `s` it found:
      the source size goes into the fields, the dimension rule rewrites the
      requested size there, then the upscale guard and the GD steps. */
  function ScaleAndRender(s: PhotoState, env: Env): (r: Outcome)
    requires s.resizeToWidth.Some? && s.resizeToHeight.Some? && s.targetFile.Some?
    ensures r.result <==> r.report.None?
    ensures r.state.resizeIfSmaller == s.resizeIfSmaller && r.state.bwFilter == s.bwFilter
    ensures r.state.jpgQuality == s.jpgQuality && r.state.mimeType == s.mimeType
  {
    var r := FitToSource(env.width, env.height, s.resizeToWidth.value, s.resizeToHeight.value);
    var s2 := s.(sourceWidth := Some(env.width), sourceHeight := Some(env.height),
                 resizeToWidth := Some(r.width), resizeToHeight := Some(r.height));
    if UpscaleRefused(s.resizeIfSmaller, env.width, env.height, r) then
      Outcome(s2, [], Some(SourceTooSmall), false)
    else
      var rendered := Render(s.bwFilter, env, r, Dims(env.width, env.height), s.targetFile.value, s.jpgQuality);
      Outcome(s2, rendered.ops, rendered.failure, rendered.failure.None?)
  }

  /** The rest of `resizeImage` once the filesystem checks have passed, on
      the fields `s` it left: the MIME type test and the decode, then
      `ScaleAndRender`. The operations are those made from the decode on. */
  function Process(s: PhotoState, env: Env): Outcome
    requires s.resizeToWidth.Some? && s.resizeToHeight.Some? && s.targetFile.Some?
  {
    if s.mimeType != Some(Jpeg) then Outcome(s, [], Some(UnsupportedMime), false)
    else if !env.decodes then Outcome(s, [Decode], Some(DecodeFailed), false)
    else
      var o := ScaleAndRender(s, env);
      o.(ops := [Decode] + o.ops)
  }

  /** `resizeImage` once its arguments are in the fields `s`: the
      filesystem checks, with writability checked when the two file fields
      are the same path, then `Process`. */
  function CheckAndProcess(s: PhotoState, env: Env): Outcome
    requires s.resizeToWidth.Some? && s.resizeToHeight.Some? && s.targetFile.Some?
  {
    var checks := FileChecks(s.sourceFile == s.targetFile, env);
    if checks.failure.Some? then Outcome(s, checks.ops, checks.failure, false)
    else
      var o := Process(s, env);
      o.(ops := checks.ops + o.ops)
  }

  /** Appending in two steps appends the concatenation. */
  lemma AppendAssociative<T>(a: seq<T>, b: seq<T>, c: seq<T>)
    ensures (a + b) + c == a + (b + c)
  {
  }

  /** One call of `resizeImage(file, target, width, height, quality)` on an
      object whose fields are `s`. */
  function Resize(s: PhotoState, c: Call, env: Env): Outcome
  {
    CheckAndProcess(Prepared(s, c, env), env)
  }

  /** Every error one call hands to `handleException`, in order: the one of
      `setImageInfo`, then the one that ended the call. */
  function CallReports(s: PhotoState, c: Call, env: Env): seq<Error>
  {
    ImageInfoReported(env) + Resize(s, c, env).Reported()
  }

  /** Success needs every check and every GD call on the way to pass, and
      the guard not to refuse; a failure is reported, a success is not. */
  lemma SuccessIff(s: PhotoState, c: Call, env: Env)
    ensures var o := Resize(s, c, env);
            var r := FitToSource(env.width, env.height, c.width, c.height);
            o.result <==>
              env.sourceExists && env.readable && (c.file == c.target ==> env.writable) &&
              MimeTypeAfter(s.mimeType, env) == Some(Jpeg) && env.decodes &&
              !UpscaleRefused(s.resizeIfSmaller, env.width, env.height, r) &&
              env.allocates && r.width >= 1 && r.height >= 1 && env.resamples &&
              (Truthy(s.bwFilter.use) ==> env.greyscales && env.contrasts) &&
              env.encodes
    ensures var o := Resize(s, c, env); o.result <==> o.report == None
  {
  }

  /** The filesystem checks run in a fixed order and the first that fails
      decides: it is reported, and no decode is attempted. */
  lemma PreconditionOrder(s: PhotoState, c: Call, env: Env)
    ensures var o := Resize(s, c, env);
            !env.sourceExists ==> o.report == Some(SourceMissing) && o.ops == [CheckExists]
    ensures var o := Resize(s, c, env);
            env.sourceExists && !env.readable ==>
              o.report == Some(SourceUnreadable) && o.ops == [CheckExists, CheckReadable]
    ensures var o := Resize(s, c, env);
            env.sourceExists && env.readable && c.file == c.target && !env.writable ==>
              o.report == Some(TargetUnwritable) && o.ops == [CheckExists, CheckReadable, CheckWritable]
    ensures var o := Resize(s, c, env);
            o.report in {Some(SourceMissing), Some(SourceUnreadable), Some(TargetUnwritable)} ==>
              !o.result && Decode !in o.ops
  {
  }

  /** Every run starts with the existence check, and writability is checked
      only when source and target are the same path. */
  lemma WritabilityOnlyInPlace(s: PhotoState, c: Call, env: Env)
    ensures var o := Resize(s, c, env); |o.ops| >= 1 && o.ops[0] == CheckExists
    ensures var o := Resize(s, c, env);
            CheckWritable in o.ops <==> c.file == c.target && env.sourceExists && env.readable
  {
    var o := Resize(s, c, env);
    if c.file != c.target {
      assert CheckWritable !in PreconditionOps(c.file == c.target);
    }
  }

  /** With `resize_if_smaller === false` a decoded source is refused exactly
      when the new size exceeds it on a side; with any other value the guard
      never fires. A refusal comes before any allocation or encode. */
  lemma UpscaleGuard(s: PhotoState, c: Call, env: Env)
    requires env.sourceExists && env.readable && (c.file == c.target ==> env.writable)
    requires MimeTypeAfter(s.mimeType, env) == Some(Jpeg) && env.decodes
    ensures var o := Resize(s, c, env);
            var r := FitToSource(env.width, env.height, c.width, c.height);
            s.resizeIfSmaller == Bool(false) ==>
              (o.report == Some(SourceTooSmall) <==> env.height < r.height || env.width < r.width)
    ensures s.resizeIfSmaller != Bool(false) ==> Resize(s, c, env).report != Some(SourceTooSmall)
    ensures var o := Resize(s, c, env);
            o.report == Some(SourceTooSmall) ==> !o.result && o.ops == PreconditionOps(c.file == c.target) + [Decode]
  {
  }

  /** Once the checks, the decode and the guard have passed, the GD steps
      run in a fixed order and the first that fails decides: it is the one
      reported, and the operations attempted end with it. */
  lemma GdFailureOrder(s: PhotoState, c: Call, env: Env)
    requires env.sourceExists && env.readable && (c.file == c.target ==> env.writable)
    requires MimeTypeAfter(s.mimeType, env) == Some(Jpeg) && env.decodes
    requires !UpscaleRefused(s.resizeIfSmaller, env.width, env.height,
                             FitToSource(env.width, env.height, c.width, c.height))
    ensures var o := Resize(s, c, env);
            var r := FitToSource(env.width, env.height, c.width, c.height);
            !Allocates(env, r) ==>
              o.report == Some(AllocateFailed) &&
              o.ops == PreconditionOps(c.file == c.target) + [Decode, Allocate(r)]
    ensures var o := Resize(s, c, env);
            var r := FitToSource(env.width, env.height, c.width, c.height);
            Allocates(env, r) && !env.resamples ==>
              o.report == Some(ResampleFailed) &&
              o.ops == PreconditionOps(c.file == c.target) +
                       [Decode, Allocate(r), Resample(r, Dims(env.width, env.height))]
    ensures var o := Resize(s, c, env);
            var r := FitToSource(env.width, env.height, c.width, c.height);
            Allocates(env, r) && env.resamples && Truthy(s.bwFilter.use) && !env.greyscales ==>
              o.report == Some(FilterFailed) &&
              o.ops == PreconditionOps(c.file == c.target) +
                       [Decode, Allocate(r), Resample(r, Dims(env.width, env.height)), Greyscale]
    ensures var o := Resize(s, c, env);
            var r := FitToSource(env.width, env.height, c.width, c.height);
            Allocates(env, r) && env.resamples && Truthy(s.bwFilter.use) && env.greyscales && !env.contrasts ==>
              o.report == Some(FilterFailed) &&
              o.ops == PreconditionOps(c.file == c.target) +
                       [Decode, Allocate(r), Resample(r, Dims(env.width, env.height)), Greyscale,
                        Contrast(s.bwFilter.contrast)]
    ensures var o := Resize(s, c, env);
            var r := FitToSource(env.width, env.height, c.width, c.height);
            Allocates(env, r) && env.resamples && (Truthy(s.bwFilter.use) ==> env.greyscales && env.contrasts) &&
            !env.encodes ==>
              o.report == Some(EncodeFailed) && |o.ops| >= 1 &&
              o.ops[|o.ops| - 1] == Encode(c.target, QualityAfter(s.jpgQuality, c.quality))
  {
    ReachesRender(s, c, env);
  }

  /** Once the checks, the decode and the guard have passed, the rest of
      the call is `Render`: its steps follow the checks and the decode, its
      failure is the one reported. */
  lemma ReachesRender(s: PhotoState, c: Call, env: Env)
    requires env.sourceExists && env.readable && (c.file == c.target ==> env.writable)
    requires MimeTypeAfter(s.mimeType, env) == Some(Jpeg) && env.decodes
    requires !UpscaleRefused(s.resizeIfSmaller, env.width, env.height,
                             FitToSource(env.width, env.height, c.width, c.height))
    ensures var r := FitToSource(env.width, env.height, c.width, c.height);
            var g := Render(s.bwFilter, env, r, Dims(env.width, env.height), c.target,
                            QualityAfter(s.jpgQuality, c.quality));
            Resize(s, c, env).ops == PreconditionOps(c.file == c.target) + ([Decode] + g.ops)
    ensures var r := FitToSource(env.width, env.height, c.width, c.height);
            var g := Render(s.bwFilter, env, r, Dims(env.width, env.height), c.target,
                            QualityAfter(s.jpgQuality, c.quality));
            Resize(s, c, env).report == g.failure
  {
  }

  /** A source whose type `setImageInfo` cannot find is reported before
      anything else, and `mime_type` keeps the value of the previous call;
      a missing source is then reported a second time by the checks. */
  lemma UnknownTypeReported(s: PhotoState, c: Call, env: Env)
    requires env.mimeType.None?
    ensures Resize(s, c, env).state.mimeType == s.mimeType
    ensures |CallReports(s, c, env)| >= 1 && CallReports(s, c, env)[0] == TypeUnknown
    ensures !env.sourceExists ==> CallReports(s, c, env) == [TypeUnknown, SourceMissing]
  {
  }

  /** A source whose type `setImageInfo` finds has that type stored, and
      the call reports at most the one error that ended it. */
  lemma KnownTypeStored(s: PhotoState, c: Call, env: Env)
    requires env.mimeType.Some?
    ensures Resize(s, c, env).state.mimeType == env.mimeType
    ensures CallReports(s, c, env) == Resize(s, c, env).Reported()
    ensures |CallReports(s, c, env)| <= 1
  {
  }

  /** A request of no positive side never succeeds: the side the rule keeps
      is below one pixel, which `ImageCreateTrueColor` refuses. */
  lemma ZeroRequestFails(s: PhotoState, c: Call, env: Env)
    requires c.width <= 0 && c.height <= 0
    ensures !Resize(s, c, env).result
  {
    SuccessIff(s, c, env);
  }

  /** How the allocation step of `resizeImage` ends. */
  datatype AllocationExit = Allocated | Handled(e: Error) | Fatal

  /** The allocation step as written (lines 525-531): a failed
      `ImageCreateTrueColor` goes on to call `is_defined`, which PHP does not
      have, so the call dies with an error that `catch (M5Exception $e)`
      does not catch; nothing is reported and nothing is returned. */
  function AllocationAsWritten(succeeded: bool): AllocationExit
  {
    if succeeded then Allocated else Fatal
  }

  /** The allocation step as evidently intended, with `defined('GD_VERSION')`:
      the failure goes to `handleException` and the call returns false. This
      is what `Render` does. */
  function AllocationIntended(succeeded: bool): AllocationExit
  {
    if succeeded then Allocated else Handled(AllocateFailed)
  }

  /** A failed allocation: as written it reports nothing and ends the call
      with an uncaught error; as intended, and in `Render`, it reports
      `AllocateFailed`, attempts nothing further and returns false. */
  lemma AllocationFailureDiffers(f: BwFilter, env: Env, size: Dims, from: Dims, target: string, quality: Value)
    requires !Allocates(env, size)
    ensures AllocationAsWritten(Allocates(env, size)) == Fatal
    ensures AllocationIntended(Allocates(env, size)) == Handled(AllocateFailed)
    ensures Render(f, env, size, from, target, quality) ==
              Steps([Allocate(size)], Some(AllocationIntended(Allocates(env, size)).e))
  {
  }

  /** The input of the finding reaches the failing allocation in a whole
      call: a 1200x800 JPEG requested at 0x0 with upscaling allowed, every
      check, the decode and every GD answer passing. The guard lets it
      through and the new size is 0x0, which `ImageCreateTrueColor`
      refuses: as written the call ends fatally, as intended it reports
      `AllocateFailed` right after the allocation. */
  lemma ZeroSizeReachesAllocation(s: PhotoState, env: Env)
    requires s.resizeIfSmaller == Bool(true)
    requires env == Env(Some(Jpeg), true, true, true, true, 1200, 800, true, true, true, true, true)
    ensures FitToSource(1200, 800, 0, 0) == Dims(0, 0)
    ensures !UpscaleRefused(s.resizeIfSmaller, 1200, 800, Dims(0, 0)) && !Allocates(env, Dims(0, 0))
    ensures AllocationAsWritten(Allocates(env, Dims(0, 0))) == Fatal
    ensures var o := Resize(s, Call("in.jpg", "out.jpg", 0, 0, Null), env);
            o.report == Some(AllocateFailed) && o.ops == PreconditionOps(false) + [Decode, Allocate(Dims(0, 0))]
  {
  }

  /** A non-JPEG source never succeeds, and nothing beyond the filesystem
      checks is attempted for it: no decode and no GD call. */
  lemma OnlyJpegSucceeds(s: PhotoState, c: Call, env: Env)
    requires MimeTypeAfter(s.mimeType, env) != Some(Jpeg)
    ensures !Resize(s, c, env).result
    ensures Resize(s, c, env).ops <= PreconditionOps(c.file == c.target)
  {
  }

  /** A successful call made, in this order: the filesystem checks, decode,
      the allocation at the rule's size, the resample from the source size
      to it, greyscale and contrast at `bw_filter['contrast']` exactly when
      the filter's `use` is true, and the encode to the target at the
      quality given to this call, or the previous one when none was given. */
  lemma SuccessfulRun(s: PhotoState, c: Call, env: Env)
    requires Resize(s, c, env).result
    ensures var r := FitToSource(env.width, env.height, c.width, c.height);
            Resize(s, c, env).ops ==
              PreconditionOps(c.file == c.target) + [Decode, Allocate(r), Resample(r, Dims(env.width, env.height))] +
              (if Truthy(s.bwFilter.use) then [Greyscale, Contrast(s.bwFilter.contrast)] else []) +
              [Encode(c.target, QualityAfter(s.jpgQuality, c.quality))]
  {
    ReachesRender(s, c, env);
  }

  /** Whatever the outcome, every GD call made gets the values the class
      computed for it: the allocation and the resample the rule's size, the
      resample the decoded size as its source, the contrast filter
      `bw_filter['contrast']`, and the encode the target path and the
      quality given to this call, or the previous one when none was given. */
  lemma CallArguments(s: PhotoState, c: Call, env: Env)
    ensures var o := Resize(s, c, env);
            var r := FitToSource(env.width, env.height, c.width, c.height);
            forall op <- o.ops ::
              (op.Allocate? ==> op == Allocate(r)) &&
              (op.Resample? ==> op == Resample(r, Dims(env.width, env.height))) &&
              (op.Contrast? ==> op == Contrast(s.bwFilter.contrast)) &&
              (op.Encode? ==> op == Encode(c.target, QualityAfter(s.jpgQuality, c.quality)))
  {
    var o := Resize(s, c, env);
    var pre := PreconditionOps(c.file == c.target);
    var r := FitToSource(env.width, env.height, c.width, c.height);
    if env.sourceExists && env.readable && (c.file == c.target ==> env.writable) &&
       MimeTypeAfter(s.mimeType, env) == Some(Jpeg) && env.decodes &&
       !UpscaleRefused(s.resizeIfSmaller, env.width, env.height, r) {
      ReachesRender(s, c, env);
      var g := Render(s.bwFilter, env, r, Dims(env.width, env.height), c.target,
                      QualityAfter(s.jpgQuality, c.quality));
      assert o.ops == pre + ([Decode] + g.ops);
      forall op <- o.ops
        ensures op.Allocate? ==> op == Allocate(r)
        ensures op.Resample? ==> op == Resample(r, Dims(env.width, env.height))
        ensures op.Contrast? ==> op == Contrast(s.bwFilter.contrast)
        ensures op.Encode? ==> op == Encode(c.target, QualityAfter(s.jpgQuality, c.quality))
      {
        if op !in pre && op != Decode {
          assert op in g.ops;
        }
      }
    }
  }

  /** The filter step is attempted only when `bw_filter['use'] == true`,
      and only after a successful resample; contrast only after greyscale. */
  lemma FilterOnlyWhenUsed(s: PhotoState, c: Call, env: Env)
    ensures var o := Resize(s, c, env);
            var r := FitToSource(env.width, env.height, c.width, c.height);
            Greyscale in o.ops ==> Truthy(s.bwFilter.use) && Resample(r, Dims(env.width, env.height)) in o.ops
    ensures var o := Resize(s, c, env);
            Contrast(s.bwFilter.contrast) in o.ops ==> Greyscale in o.ops
  {
    var o := Resize(s, c, env);
    assert Greyscale !in PreconditionOps(c.file == c.target);
    assert Contrast(s.bwFilter.contrast) !in PreconditionOps(c.file == c.target);
  }

  /** Whatever the outcome, the call leaves its arguments in the fields, a
      given quality in `jpg_quality` for later calls, and the configured
      upscale policy and filter as they were. */
  lemma StateLeftBehind(s: PhotoState, c: Call, env: Env)
    ensures var t := Resize(s, c, env).state;
            t.sourceFile == Some(c.file) && t.targetFile == Some(c.target) &&
            t.mimeType == MimeTypeAfter(s.mimeType, env) &&
            t.jpgQuality == QualityAfter(s.jpgQuality, c.quality) &&
            t.resizeIfSmaller == s.resizeIfSmaller && t.bwFilter == s.bwFilter
    ensures var o := Resize(s, c, env);
            Decode in o.ops && o.report != Some(DecodeFailed) ==>
              o.state.sourceWidth == Some(env.width) && o.state.sourceHeight == Some(env.height) &&
              o.state.resizeToWidth == Some(FitToSource(env.width, env.height, c.width, c.height).width) &&
              o.state.resizeToHeight == Some(FitToSource(env.width, env.height, c.width, c.height).height)
    ensures var o := Resize(s, c, env);
            Decode !in o.ops || o.report == Some(DecodeFailed) ==>
              o.state.sourceWidth == s.sourceWidth && o.state.sourceHeight == s.sourceHeight &&
              o.state.resizeToWidth == Some(c.width) && o.state.resizeToHeight == Some(c.height)
  {
    var o := Resize(s, c, env);
    assert Decode !in PreconditionOps(c.file == c.target);
  }

  /** 1200x800 requested at 640x640 with `resize_if_smaller` false and
      every GD call succeeding: the call succeeds and leaves 640x427. */
  lemma AcceptedExample(s: PhotoState, env: Env)
    requires s.resizeIfSmaller == Bool(false) && !Truthy(s.bwFilter.use)
    requires env == Env(Some(Jpeg), true, true, true, true, 1200, 800, true, true, true, true, true)
    ensures var o := Resize(s, Call("in.jpg", "out.jpg", 640, 640, Null), env);
            o.result && o.state.resizeToWidth == Some(640) && o.state.resizeToHeight == Some(427)
  {
    LandscapeExample();
  }

  /** The same source requested at 2000x2000 is refused by the guard. */
  lemma RefusedExample(s: PhotoState, env: Env)
    requires s.resizeIfSmaller == Bool(false)
    requires env == Env(Some(Jpeg), true, true, true, true, 1200, 800, true, true, true, true, true)
    ensures var o := Resize(s, Call("in.jpg", "out.jpg", 2000, 2000, Null), env);
            !o.result && o.report == Some(SourceTooSmall)
  {
    assert RoundQuotient(2000 * 800, 1200) == 1333;
  }
}
