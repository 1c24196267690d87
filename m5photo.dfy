/** The `m5Photo` class: its configuration, the black and white filter
    setting, and `resizeImage`, which overwrites the object's fields step by
    step and returns on the first failure. The filesystem and GD answers
    come in as an `Env`; the operations attempted and the errors handed to
    `handleException` are recorded in `ops` and `reports`. */
module M5Photo {
  import opened PhpValues
  import opened Dimensions
  import opened Pipeline

  /** The `contrast` default of `setBWFilter`. */
  const DefaultContrast: Value := Int(4)

  /** A settings value the constructor throws on: `empty($val) && !is_bool($val)`. */
  predicate Refused(v: Value)
  {
    IsEmpty(v) && !v.Bool?
  }

  /** The constructor accepts its settings when no value is refused. */
  predicate SettingsAccepted(settings: map<string, Value>)
  {
    forall k :: k in settings ==> !Refused(settings[k])
  }

  /** The constructor's loop over `$settings`: false at the first refused
      value, true when every value passed. */
  method CheckSettings(settings: map<string, Value>) returns (ok: bool)
    ensures ok <==> SettingsAccepted(settings)
  {
    var pending := settings.Keys;
    while pending != {}
      invariant pending <= settings.Keys
      invariant forall k :: k in settings && k !in pending ==> !Refused(settings[k])
      decreases pending
    {
      var k :| k in pending;
      if Refused(settings[k]) {
        return false;
      }
      pending := pending - {k};
    }
    return true;
  }

  /** Accepted settings hold no null, so `isset` on them is key presence. */
  lemma AcceptedSettingsAreSet(settings: map<string, Value>, key: string)
    requires SettingsAccepted(settings)
    ensures IsSet(settings, key) <==> key in settings
  {
    if key in settings {
      assert !Refused(settings[key]);
    }
  }

  /** For accepted settings the constructor's `isset` tests are key
      presence: a given `jpg_quality` or `resize_if_smaller` is taken as it
      is, and only a missing one falls back to 85 or `false`. */
  lemma SettingsDefaults(settings: map<string, Value>)
    requires SettingsAccepted(settings)
    ensures ValueOr(settings, "jpg_quality", Int(85)) ==
              if "jpg_quality" in settings then settings["jpg_quality"] else Int(85)
    ensures ValueOr(settings, "resize_if_smaller", Bool(false)) ==
              if "resize_if_smaller" in settings then settings["resize_if_smaller"] else Bool(false)
  {
    AcceptedSettingsAreSet(settings, "jpg_quality");
    AcceptedSettingsAreSet(settings, "resize_if_smaller");
  }

  /** `new m5Photo($settings)`: `None` when the constructor throws, else a
      fresh object with the defaults `jpg_quality = 85` and
      `resize_if_smaller = false` for settings not given. */
  method Construct(settings: map<string, Value>) returns (photo: Option<Photo>)
    ensures photo.None? <==> !SettingsAccepted(settings)
    ensures photo.Some? ==> fresh(photo.value) && photo.value.Initialised(settings)
    ensures photo.Some? ==>
              photo.value.jpgQuality ==
                (if "jpg_quality" in settings then settings["jpg_quality"] else Int(85)) &&
              photo.value.resizeIfSmaller ==
                (if "resize_if_smaller" in settings then settings["resize_if_smaller"] else Bool(false))
  {
    var ok := CheckSettings(settings);
    if !ok {
      return None;
    }
    var p := new Photo(settings);
    SettingsDefaults(settings);
    return Some(p);
  }

  class Photo {
    var sourceFile: Option<string>
    var targetFile: Option<string>
    var mimeType: Option<string>
    var sourceWidth: Option<int>
    var sourceHeight: Option<int>
    var resizeToWidth: Option<int>
    var resizeToHeight: Option<int>
    var resizeIfSmaller: Value
    var jpgQuality: Value
    var bwFilter: BwFilter
    /** The filesystem and GD operations attempted, oldest first (a log of
        the outside calls, not a property of the PHP object). */
    ghost var ops: seq<Op>
    /** The errors handed to `handleException`, oldest first. */
    ghost var reports: seq<Error>

    /** The class's own fields as a value. */
    function Snapshot(): PhotoState
      reads this`sourceFile, this`targetFile, this`mimeType, this`sourceWidth, this`sourceHeight
      reads this`resizeToWidth, this`resizeToHeight, this`resizeIfSmaller, this`jpgQuality, this`bwFilter
    {
      PhotoState(sourceFile, targetFile, mimeType, sourceWidth, sourceHeight,
                 resizeToWidth, resizeToHeight, resizeIfSmaller, jpgQuality, bwFilter)
    }

    /** The state the constructor leaves for accepted `settings`. */
    ghost predicate Initialised(settings: map<string, Value>)
      reads this
    {
      Snapshot() == PhotoState(None, None, None, None, None, None, None,
                               ValueOr(settings, "resize_if_smaller", Bool(false)),
                               ValueOr(settings, "jpg_quality", Int(85)),
                               NoFilter) &&
      ops == [] && reports == []
    }

    /** The constructor once its settings have passed the check. */
    constructor (settings: map<string, Value>)
      requires SettingsAccepted(settings)
      ensures Initialised(settings)
    {
      sourceFile, targetFile, mimeType := None, None, None;
      sourceWidth, sourceHeight := None, None;
      resizeToWidth, resizeToHeight := None, None;
      jpgQuality := ValueOr(settings, "jpg_quality", Int(85));
      resizeIfSmaller := ValueOr(settings, "resize_if_smaller", Bool(false));
      bwFilter := NoFilter;
      ops, reports := [], [];
    }

    /** `handleException`: the message is reported; where it goes is not modelled. */
    method HandleException(e: Error)
      modifies this`reports
      ensures reports == old(reports) + [e]
    {
      reports := reports + [e];
    }

    /** `setResizeSize`: the requested size goes into the two fields. */
    method SetResizeSize(width: int, height: int)
      modifies this`resizeToWidth, this`resizeToHeight
      ensures Snapshot() == old(Snapshot()).(resizeToWidth := Some(width), resizeToHeight := Some(height))
    {
      resizeToWidth := Some(width);
      resizeToHeight := Some(height);
    }

    /** `setBWFilter($use, $contrast)`: without `imagefilter` the filter is
        left as it was and the missing capability is reported; otherwise it
        becomes `{use, contrast}`. */
    method SetBWFilter(use: Value, contrast: Value, filterAvailable: bool)
      modifies this`bwFilter, this`reports
      ensures filterAvailable ==> bwFilter == BwFilter(use, Some(contrast)) && reports == old(reports)
      ensures !filterAvailable ==>
                bwFilter == old(bwFilter) && reports == old(reports) + [FilterUnavailable]
    {
      if !filterAvailable {
        HandleException(FilterUnavailable);
        return;
      }
      bwFilter := BwFilter(use, Some(contrast));
    }

    /** `setBWFilter($use)` with the default contrast of 4. */
    method SetBWFilterDefaultContrast(use: Value, filterAvailable: bool)
      modifies this`bwFilter, this`reports
      ensures filterAvailable ==> bwFilter == BwFilter(use, Some(Int(4))) && reports == old(reports)
      ensures !filterAvailable ==>
                bwFilter == old(bwFilter) && reports == old(reports) + [FilterUnavailable]
    {
      SetBWFilter(use, DefaultContrast, filterAvailable);
    }

    /** The horizontal, vertical and square cases of `resizeImage`, tested
        one after the other on the fields: the requested size becomes the
        size the dimension rule gives for a `sw` x `sh` source. */
    method ApplyDimensionRule(sw: Pos, sh: Pos)
      requires resizeToWidth.Some? && resizeToHeight.Some?
      modifies this`resizeToWidth, this`resizeToHeight
      ensures var r := FitToSource(sw, sh, old(resizeToWidth).value, old(resizeToHeight).value);
              resizeToWidth == Some(r.width) && resizeToHeight == Some(r.height)
    {
      if sw > sh {
        resizeToHeight := Some(RoundQuotient(resizeToWidth.value * sh, sw));
      }
      if sh > sw {
        resizeToWidth := Some(RoundQuotient(resizeToHeight.value * sw, sh));
      }
      if sh == sw {
        if resizeToWidth != resizeToHeight {
          if resizeToWidth.value > resizeToHeight.value {
            resizeToWidth := resizeToHeight;
          } else if resizeToWidth.value < resizeToHeight.value {
            resizeToHeight := resizeToWidth;
          }
        }
      }
    }

    /** The filesystem checks of `resizeImage`, on the file names already
        in the fields: each failing check is reported and ends the checks. */
    method CheckFiles(env: Env) returns (passed: bool)
      modifies this`ops, this`reports
      ensures ops == old(ops) + FileChecks(sourceFile == targetFile, env).ops
      ensures passed == FileChecks(sourceFile == targetFile, env).failure.None?
      ensures reports == old(reports) + FileChecks(sourceFile == targetFile, env).Reported()
    {
      ops := ops + [CheckExists];
      if !env.sourceExists {
        HandleException(SourceMissing);
        return false;
      }
      ops := ops + [CheckReadable];
      if !env.readable {
        HandleException(SourceUnreadable);
        return false;
      }
      if sourceFile == targetFile {
        ops := ops + [CheckWritable];
        if !env.writable {
          HandleException(TargetUnwritable);
          return false;
        }
      }
      return true;
    }

    /** The GD steps of `resizeImage` after the upscale guard, on the sizes,
        the target and the quality in the fields: allocate, resample,
        greyscale then contrast when the filter is in use, and encode; the
        first failure is reported and ends the call. */
    method RenderAndEncode(env: Env) returns (ok: bool)
      requires resizeToWidth.Some? && resizeToHeight.Some?
      requires sourceWidth.Some? && sourceHeight.Some? && targetFile.Some?
      modifies this`ops, this`reports
      ensures ops == old(ops) + Render(bwFilter, env, Dims(resizeToWidth.value, resizeToHeight.value),
                                       Dims(sourceWidth.value, sourceHeight.value), targetFile.value, jpgQuality).ops
      ensures ok == Render(bwFilter, env, Dims(resizeToWidth.value, resizeToHeight.value),
                           Dims(sourceWidth.value, sourceHeight.value), targetFile.value, jpgQuality).failure.None?
      ensures reports ==
                old(reports) + Render(bwFilter, env, Dims(resizeToWidth.value, resizeToHeight.value),
                                      Dims(sourceWidth.value, sourceHeight.value), targetFile.value, jpgQuality).Reported()
    {
      var size := Dims(resizeToWidth.value, resizeToHeight.value);
      ops := ops + [Allocate(size)];
      if !env.allocates || size.width < 1 || size.height < 1 {
        HandleException(AllocateFailed);
        return false;
      }
      ops := ops + [Resample(size, Dims(sourceWidth.value, sourceHeight.value))];
      if !env.resamples {
        HandleException(ResampleFailed);
        return false;
      }
      if Truthy(bwFilter.use) {
        ops := ops + [Greyscale];
        var filtered := env.greyscales;
        if filtered {
          ops := ops + [Contrast(bwFilter.contrast)];
          filtered := env.contrasts;
        }
        if !filtered {
          HandleException(FilterFailed);
          return false;
        }
      }
      // The MIME type is JPEG here: any other returned before the decode.
      ops := ops + [Encode(targetFile.value, jpgQuality)];
      if !env.encodes {
        HandleException(EncodeFailed);
        return false;
      }
      return true;
    }

    /** `resizeImage` after a successful decode: the source size goes into
        the fields, the dimension rule rewrites the requested size, then the
        upscale guard and the GD steps. */
    method ScaleAndRenderSource(env: Env) returns (ok: bool)
      requires resizeToWidth.Some? && resizeToHeight.Some? && targetFile.Some?
      modifies this`sourceWidth, this`sourceHeight, this`resizeToWidth, this`resizeToHeight
      modifies this`ops, this`reports
      ensures Snapshot() == ScaleAndRender(old(Snapshot()), env).state
      ensures ok == ScaleAndRender(old(Snapshot()), env).result
      ensures ops == old(ops) + ScaleAndRender(old(Snapshot()), env).ops
      ensures reports == old(reports) + ScaleAndRender(old(Snapshot()), env).Reported()
    {
      sourceWidth := Some(env.width);
      sourceHeight := Some(env.height);
      ApplyDimensionRule(env.width, env.height);
      if resizeIfSmaller == Bool(false) {
        if env.height < resizeToHeight.value || env.width < resizeToWidth.value {
          HandleException(SourceTooSmall);
          return false;
        }
      }
      ok := RenderAndEncode(env);
    }

    /** `resizeImage` from the MIME type test on, once the filesystem
        checks have passed: only a JPEG is decoded, and a decoded source
        goes on to `ScaleAndRenderSource`. */
    method ProcessSource(env: Env) returns (ok: bool)
      requires resizeToWidth.Some? && resizeToHeight.Some? && targetFile.Some?
      modifies this`sourceWidth, this`sourceHeight, this`resizeToWidth, this`resizeToHeight
      modifies this`ops, this`reports
      ensures Snapshot() == Process(old(Snapshot()), env).state
      ensures ok == Process(old(Snapshot()), env).result
      ensures ops == old(ops) + Process(old(Snapshot()), env).ops
      ensures reports == old(reports) + Process(old(Snapshot()), env).Reported()
    {
      if mimeType != Some(Jpeg) {
        HandleException(UnsupportedMime);
        return false;
      }
      ops := ops + [Decode];
      if !env.decodes {
        HandleException(DecodeFailed);
        return false;
      }
      ok := ScaleAndRenderSource(env);
      AppendAssociative(old(ops), [Decode], ScaleAndRender(old(Snapshot()), env).ops);
    }

    /** `setImageInfo`, as far as `mime_type` goes: the type found is
        stored; when none is found the failure is reported and `mime_type`
        keeps its previous value. */
    method SetImageInfo(env: Env)
      modifies this`mimeType, this`reports
      ensures mimeType == MimeTypeAfter(old(mimeType), env)
      ensures reports == old(reports) + ImageInfoReported(env)
    {
      if env.mimeType.None? {
        HandleException(TypeUnknown);
        return;
      }
      mimeType := env.mimeType;
    }

    /** The start of `resizeImage`: the file names and the requested size
        go into the fields, then `setImageInfo`, then the quality when one
        is given. */
    method TakeArguments(file: string, target: string, width: int, height: int, quality: Value, env: Env)
      modifies this`sourceFile, this`targetFile, this`resizeToWidth, this`resizeToHeight
      modifies this`mimeType, this`jpgQuality, this`reports
      ensures Snapshot() == Prepared(old(Snapshot()), Call(file, target, width, height, quality), env)
      ensures reports == old(reports) + ImageInfoReported(env)
    {
      sourceFile := Some(file);
      targetFile := Some(target);
      SetResizeSize(width, height);
      SetImageInfo(env);
      if quality != Null {
        jpgQuality := quality;
      }
    }

    /** `resizeImage` once its arguments are in the fields: the filesystem
        checks, then `ProcessSource` when they all passed. */
    method CheckAndProcessSource(env: Env) returns (ok: bool)
      requires resizeToWidth.Some? && resizeToHeight.Some? && targetFile.Some?
      modifies this`sourceWidth, this`sourceHeight, this`resizeToWidth, this`resizeToHeight
      modifies this`ops, this`reports
      ensures Snapshot() == CheckAndProcess(old(Snapshot()), env).state
      ensures ok == CheckAndProcess(old(Snapshot()), env).result
      ensures ops == old(ops) + CheckAndProcess(old(Snapshot()), env).ops
      ensures reports == old(reports) + CheckAndProcess(old(Snapshot()), env).Reported()
    {
      ghost var s0 := Snapshot();
      ghost var checks := FileChecks(sourceFile == targetFile, env);
      var passed := CheckFiles(env);
      assert Snapshot() == s0;
      if !passed {
        return false;
      }
      ok := ProcessSource(env);
      AppendAssociative(old(ops), checks.ops, Process(s0, env).ops);
    }

    /** `resizeImage($file, $target, $width, $height, $quality)`, `quality`
        being `Null` when omitted: the fields, the operations attempted, the
        error reported and the result are those of `Resize`. */
    method ResizeImage(file: string, target: string, width: int, height: int, quality: Value, env: Env)
      returns (ok: bool)
      modifies this`sourceFile, this`targetFile, this`mimeType, this`jpgQuality
      modifies this`sourceWidth, this`sourceHeight, this`resizeToWidth, this`resizeToHeight
      modifies this`ops, this`reports
      ensures Snapshot() == Resize(old(Snapshot()), Call(file, target, width, height, quality), env).state
      ensures ok == Resize(old(Snapshot()), Call(file, target, width, height, quality), env).result
      ensures ops == old(ops) + Resize(old(Snapshot()), Call(file, target, width, height, quality), env).ops
      ensures reports == old(reports) + CallReports(old(Snapshot()), Call(file, target, width, height, quality), env)
    {
      TakeArguments(file, target, width, height, quality, env);
      ok := CheckAndProcessSource(env);
      AppendAssociative(old(reports), ImageInfoReported(env),
                        Resize(old(Snapshot()), Call(file, target, width, height, quality), env).Reported());
    }
  }
}
