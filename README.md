# m5Photo resize core in Dafny

This is a model of the `m5Photo` PHP class (`m5photo.class.php`). The class
resizes one JPEG file into another and can apply a black and white filter.
The model covers the following parts of the class:

- **The constructor.** It throws when a setting is empty and not a boolean.
  Otherwise it takes `jpg_quality` (default 85) and `resize_if_smaller`
  (default `false`) from the settings.
- **`setResizeSize`, `setBWFilter` and `handleException`.** `handleException`
  is modelled only as the error it receives.
- **`resizeImage`, step by step.**
  1. It copies the file names and the requested size into the fields.
  2. It calls `setImageInfo`. That stores the MIME type `exif_imagetype`
     finds. When none is found, it reports the failure and leaves
     `mime_type` as the previous call set it. This report does not end the
     call.
  3. It overrides `jpg_quality` when a quality is given.
  4. It runs the filesystem checks in order: exists, readable, and writable
     when source and target are the same path.
  5. It decodes the source when `mime_type` is JPEG.
  6. It applies the dimension rule, which rewrites `resize_to_width` and
     `resize_to_height` from the source's aspect ratio.
  7. It applies the upscale guard, which is active only when
     `resize_if_smaller === false`.
  8. It runs the GD steps: allocate, resample, the filter when
     `bw_filter['use'] == true`, and encode. The allocation fails for a
     side below one pixel.

From step 4 on, the first failure is reported and ends the call.

The project has four modules:

- `PhpValues` (`php_values.dfy`) models PHP scalars, with `empty()`,
  `== true` and `isset`.
- `Dimensions` (`dimensions.dfy`) holds the pure dimension rule `FitToSource`
  and its properties.
- `Pipeline` (`pipeline.dfy`) is a pure specification of one `resizeImage`
  call. Its result is the fields afterwards, the filesystem and GD operations
  attempted in order, the error reported and the boolean result.
- `M5Photo` (`m5photo.dfy`) holds the class `Photo`. Its fields are those of
  the PHP object. Its methods update them in place, as the PHP code does, and
  each method is proved to produce exactly the state and result of the
  `Pipeline` function that specifies it.

The filesystem and the GD library are not modelled. Their answers for one
call (MIME type, existence, readability, writability, the decoded size and
the success of each GD call) come in as an `Env` value. The operations the
class attempts are appended to the ghost field `ops`, each GD call with the
values the class passes to it: the new size to `ImageCreateTrueColor`, the new
and the source size to `imagecopyresampled`, `bw_filter['contrast']` to the
contrast filter, and `target_file` and `jpg_quality` to `imagejpeg`. The errors handed to
`handleException` are appended to the ghost field `reports`. These include
the one from `setImageInfo`, which comes before any filesystem check. A
missing source is therefore reported twice (`UnknownTypeReported`).

Where the code and the class's documentation disagree, the model follows the
code:

- The documentation calls `$width` and `$height` maximum dimensions. The code
  keeps the requested width of a landscape source and derives the height from
  it, so the height can exceed the one requested (`NotABoundingBox`).
- The upscale guard tests `resize_if_smaller === false`. Any other value that
  can reach the field, such as `true`, `1` or `"yes"`, lets the call upscale.
  The constructor refuses `0`, `""` and `null`, and nothing else writes the
  field.
- The filter runs when `bw_filter['use']` converts to `true`, so a non-empty
  string such as `"yes"` enables it.
- The documentation of `$source_width` and `$source_height` says the size
  check runs when `$resize_if_smaller` is `'true'`. Line 492 runs it when the
  field `=== false`, and the model follows line 492 (`UpscaleGuard`).
- The requested width and height are not required to be positive. The rule
  is stated for any integers.

## Model

| member | source | states |
|---|---|---|
| PhpValues.TruthyIsNotEmpty | m5photo.class.php:548 | the boolean conversion used by `== true` is true exactly for the values `empty()` calls non-empty |
| Dimensions.RoundNearest | m5photo.class.php:462 | the exact rounding used for `round()` gives the integer nearest to `n / d` with ties away from zero (bounds on `2*(r*d - n)`) and keeps the sign of `n` |
| Dimensions.LandscapeRule | m5photo.class.php:458-463 | a landscape source keeps the requested width; the height is the width times `sh/sw` to the nearest pixel; the requested height has no influence |
| Dimensions.PortraitRule | m5photo.class.php:465-470 | a portrait source keeps the requested height; the width is the height times `sw/sh` to the nearest pixel; the requested width has no influence |
| Dimensions.SquareRule | m5photo.class.php:472-490 | a square source yields a square of the smaller requested side, and an already square request is kept |
| Dimensions.OrientationKept | m5photo.class.php:458-490 | for a non-negative request the new size is never taller than wide for a landscape source, never wider than tall for a portrait one, and square for a square one, with no side negative |
| Dimensions.ScaledDown | m5photo.class.php:462 | scaling a non-negative side by a ratio below one and rounding stays between 0 and the side |
| Dimensions.FitIdempotent | m5photo.class.php:458-490 | applying the rule again to its own output for the same source changes nothing |
| Dimensions.LandscapeExample | m5photo.class.php:458-463 | 1200x800 requested at 640x640 gives 640x427 |
| Dimensions.NotABoundingBox | m5photo.class.php:458-463 | 1200x800 requested at 640x300 gives 640x427, taller than requested: the rule is not a fit-inside-the-box rule |
| Pipeline.FileChecks | m5photo.class.php:404-430 | the checks pass exactly when the source exists, is readable and, for an in-place call, is writable; the checks attempted are a non-empty prefix of exists, readable, writable-when-in-place, all of them on a pass; a failure is one of the three check errors |
| Pipeline.FilterStep | m5photo.class.php:547-557 | nothing is attempted exactly when `use` is not true; the steps are a prefix of greyscale then contrast at `bw_filter['contrast']`; the step fails exactly when the filter is in use and either GD filter call fails, and then reports the filter failure |
| Pipeline.Render | m5photo.class.php:517-587 | the GD steps start with the allocation at the new size and pass exactly when a size of at least one pixel is allocated and resampling, the filter calls when in use, and the encode all pass; on a pass they were allocate at the new size, resample from the source size to it, greyscale and contrast at the filter's level when in use, and encode to the target at the quality, in that order |
| Pipeline.ScaleAndRender | m5photo.class.php:455-587 | after a decode the call succeeds exactly when nothing is reported, and it leaves the upscale policy, the filter, the quality and the MIME type as they were |
| Pipeline.SuccessIff | m5photo.class.php:386-588 | a call returns true exactly when every filesystem check passes, the `mime_type` left by `setImageInfo` is JPEG and the source decodes, the upscale guard does not refuse, the new size is at least one pixel on each side and the allocation passes, and every later GD step passes (the filter steps only when in use); it returns true exactly when nothing was reported |
| Pipeline.PreconditionOrder | m5photo.class.php:404-430 | the existence, readability and in-place writability checks run in this order; the first that fails is the one reported, nothing after it is attempted, and the call fails before any decode |
| Pipeline.WritabilityOnlyInPlace | m5photo.class.php:420 | every call starts with the existence check; writability is checked exactly when source and target are the same path and the first two checks passed |
| Pipeline.UpscaleGuard | m5photo.class.php:491-515 | for a decoded JPEG with `resize_if_smaller === false`, the call is refused exactly when the new size exceeds the source on either side; any other setting never refuses; after a refusal nothing was attempted beyond the checks and the decode |
| Pipeline.GdFailureOrder | m5photo.class.php:517-587 | once the checks, decode and guard pass, the first failing GD step is the one reported and the operations end with it: a failing allocation (including a new side below one pixel) reports `AllocateFailed` after allocating at the rule's size; a failing resample `ResampleFailed` after the resample from the source size; a failing greyscale or contrast `FilterFailed` after greyscale, or greyscale and contrast at the filter's level; a failing encode `EncodeFailed` with the encode to the target at the quality used as the last step |
| Pipeline.ReachesRender | m5photo.class.php:517-587 | once the checks, decode and guard pass, the rest of the call's steps and its report are those of `Render` at the rule's size, the decoded size, the call's target and the quality given to the call or kept from before |
| Pipeline.UnknownTypeReported | m5photo.class.php:328-352 | when no type is found, `mime_type` keeps its previous value and the type failure is reported first; a missing source is reported again by the checks |
| Pipeline.KnownTypeStored | m5photo.class.php:328-352 | when `setImageInfo` finds a type, `mime_type` holds it after the call and the call reports only the error that ended it, if any |
| Pipeline.ZeroRequestFails | m5photo.class.php:458-531 | a request with no positive side never succeeds, because the side the rule keeps is below one pixel and the allocation refuses it |
| Pipeline.AllocationFailureDiffers | m5photo.class.php:525-531 | for a failed allocation, the step as written ends the call with an uncaught error and reports nothing; as intended, and as `Render` models it, the step reports `AllocateFailed` with nothing attempted after it |
| Pipeline.ZeroSizeReachesAllocation | m5photo.class.php:458-531 | a 1200x800 JPEG requested at 0x0 with `resize_if_smaller` true, every check and GD answer passing, gets the new size 0x0, passes the guard and fails the allocation: as written the call ends fatally, as intended it reports `AllocateFailed` right after allocating 0x0 |
| Pipeline.OnlyJpegSucceeds | m5photo.class.php:434-443 | a source whose MIME type is not `image/jpeg` never succeeds, and nothing beyond the filesystem checks is attempted for it |
| Pipeline.SuccessfulRun | m5photo.class.php:517-575 | a successful call attempted exactly the checks, decode, the allocation at the rule's size, the resample from the decoded size to it, greyscale and contrast at `bw_filter['contrast']` when the filter is in use, and the encode to the call's target at the quality given to the call or, when none was given, the previous `jpg_quality`, in that order |
| Pipeline.CallArguments | m5photo.class.php:525-563 | in every call, whatever its outcome, each GD call made received the class's own values: the allocation and the resample the rule's size, the resample the decoded size, the contrast filter `bw_filter['contrast']`, and `imagejpeg` the target path and the quality override of lines 399-402 |
| Pipeline.FilterOnlyWhenUsed | m5photo.class.php:547-557 | greyscale is attempted only when `bw_filter['use'] == true` and only after the resample, and contrast only after greyscale |
| Pipeline.StateLeftBehind | m5photo.class.php:388-402 | after any call the fields hold the call's file names, the MIME type found or the previous one when none was found, the given quality (kept for later calls) or the old one, and the unchanged upscale policy and filter; after a decode the source size and the rule's size are in the fields, and before it the requested size |
| Pipeline.AcceptedExample | m5photo.class.php:455-575 | 1200x800 at 640x640 with upscaling refused and every step passing succeeds and leaves 640x427 in the fields |
| Pipeline.RefusedExample | m5photo.class.php:491-515 | the same source requested at 2000x2000 (computed 2000x1333) is refused as too small |
| M5Photo.CheckSettings | m5photo.class.php:226-237 | the constructor's loop over the settings accepts them exactly when no value is both empty and not a boolean |
| M5Photo.AcceptedSettingsAreSet | m5photo.class.php:231-243 | accepted settings hold no null, so `isset` on them is key presence |
| M5Photo.SettingsDefaults | m5photo.class.php:239-243 | for accepted settings, `jpg_quality` and `resize_if_smaller` are the given values when their keys are present and 85 and `false` only when missing |
| M5Photo.Construct | m5photo.class.php:223-244 | construction fails exactly for refused settings; otherwise the new object has `jpg_quality` and `resize_if_smaller` as given when their keys are present, else 85 and `false`, the filter off and no other field set |
| M5Photo.Photo.constructor | m5photo.class.php:239-243 | the fields of a fresh object for accepted settings |
| M5Photo.Photo.HandleException | m5photo.class.php:600-610 | the error is reported and nothing else changes |
| M5Photo.Photo.SetResizeSize | m5photo.class.php:259-263 | the requested size goes into the two fields and every other field is unchanged |
| M5Photo.Photo.SetBWFilter | m5photo.class.php:282-299 | without `imagefilter` the filter is unchanged and the failure reported; otherwise the filter becomes `{use, contrast}` and nothing is reported |
| M5Photo.Photo.SetBWFilterDefaultContrast | m5photo.class.php:282 | `setBWFilter($use)` sets the contrast to 4 |
| M5Photo.Photo.ApplyDimensionRule | m5photo.class.php:458-490 | the three `if` statements, applied one after the other to the fields, leave exactly the size `FitToSource` gives |
| M5Photo.Photo.CheckFiles | m5photo.class.php:404-430 | the checks attempted, the result and the report are those of `FileChecks` |
| M5Photo.Photo.RenderAndEncode | m5photo.class.php:517-587 | the GD steps attempted, with their arguments taken from the fields (new size, source size, contrast, target, quality), the result and the report are those of `Render` |
| M5Photo.Photo.ScaleAndRenderSource | m5photo.class.php:455-587 | the fields, steps, result and report after a decode are those of `ScaleAndRender` |
| M5Photo.Photo.ProcessSource | m5photo.class.php:432-587 | the fields, steps, result and report from the MIME test on are those of `Process` |
| M5Photo.Photo.SetImageInfo | m5photo.class.php:311-352 | `mime_type` becomes the type found, or keeps its value when none is found; the failure alone is reported |
| M5Photo.Photo.TakeArguments | m5photo.class.php:388-402 | the fields after the arguments are copied in and `setImageInfo` has run are those of `Prepared`, and its report is the only one |
| M5Photo.Photo.CheckAndProcessSource | m5photo.class.php:404-587 | the fields, steps, result and report from the checks on are those of `CheckAndProcess` |
| M5Photo.Photo.ResizeImage | m5photo.class.php:386-588 | the fields, the operations attempted and the result of the whole call are those of `Resize`, and the errors reported are `CallReports` (the `setImageInfo` failure, then the one that ended the call); the `Pipeline` lemmas above are proved about these |

## Left out

- Pixels: decoding, resampling, the filters and encoding are not modelled. `Env` gives the success of each GD call and the decoded size.
- The filesystem checks are booleans in `Env`. `file_exists`, `is_readable` and `is_writable` are not modelled.
- M5Photo.Photo.SetImageInfo: only `exif_imagetype` is modelled, and its answer is an input. The `getimagesize` fallback is not modelled. Neither is the uncaught `Exception` thrown when `image_type_to_mime_type` is missing. `$exif_data` and `$chmod` are not modelled.
- Pipeline.OnlyJpegSucceeds: the model fails a non-JPEG source with `UnsupportedMime` before any step after the checks. The code does not stop there. It goes on past line 443 with `$image` undefined, and what follows depends on the PHP version:
  - Under PHP 5 and 7, `imageSX`/`imageSY` give `null`, so the size fields become `null`.
  - Because `null === null`, the square branch is taken, and it collapses `resize_to_width` and `resize_to_height` to the smaller requested side.
  - With `resize_if_smaller === false`, the guard then refuses any non-zero side, since `null < n` compares `false < true`.
  - Otherwise `ImageCreateTrueColor` fails when the smaller side is below 1, which leads to the fatal `is_defined` call (see Pipeline.GdFailureOrder below). Failing that, `imagecopyresampled` fails.
  - The closing MIME test is never reached.
  - Under PHP 8, `imageSX(null)` throws a `TypeError`. `catch (M5Exception $e)` does not catch it, so nothing is reported.
  - The model keeps only what the paths share: no success, and no decode or encode. It attempts nothing after the checks, where the code under PHP 5 and 7 may still call `ImageCreateTrueColor` and `imagecopyresampled`.
- Pipeline.StateLeftBehind: for a non-JPEG source the model leaves `source_width` and `source_height` as they were, and `resize_to_width` and `resize_to_height` as requested. The code as written, under PHP 5 and 7, overwrites the source size fields with `null` and collapses both requested sides to the smaller one, as the item above explains.
- Dimensions.RoundNearest: PHP computes `round(tw / (sw / sh))` in floating point. The model rounds the exact quotient `tw * sh / sw` half away from zero. The two can differ where the floating-point quotient lands on the other side of a tie.
- PHP floats, arrays and objects as setting or argument values are not modelled. Width and height are integers. So after the landscape or portrait branch the fields hold integers, not PHP's float results of `round()`.
- M5Photo.Construct: the exception the constructor throws is modelled as `None`. Its message is not modelled.
- M5Photo.Photo.HandleException: where the message goes (`echo` under `DEBUG`, `error_log` otherwise) and its text are not modelled, only which error was reported.
- Pipeline.GdFailureOrder: on a failed allocation the model reports `AllocateFailed` and returns false, as evidently intended. As written, line 529 calls `is_defined`, which is not a PHP function. That is a fatal error under PHP 5 and an uncaught `Error` under PHP 7 and later, so the call neither reports nor returns. See "## Findings". The allocation is modelled as failing when either new side is below one pixel, as `imagecreatetruecolor` refuses such a size, or when `Env.allocates` is false. Other size limits of GD are part of `Env.allocates`.
- `imagedestroy` calls are not modelled. They release memory and have no effect on the result.
- `example.php`, the usage script, is not modelled.

## Findings

| source | as written | input that shows it | evidently intended | confidence | as-written member | corrected member |
|---|---|---|---|---|---|---|
| m5photo.class.php:529 | a failed `ImageCreateTrueColor` calls `is_defined('GD_VERSION')`; PHP has no such function, so the call dies with an error that `catch (M5Exception $e)` does not catch, and nothing is reported or returned | any decoded JPEG whose new size has a side below 1, such as 1200x800 requested at 0x0 with `resize_if_smaller` true | `defined('GD_VERSION')`: the allocation failure is handed to `handleException` and the call returns false | high; not executed | Pipeline.AllocationAsWritten, Pipeline.AllocationFailureDiffers, Pipeline.ZeroSizeReachesAllocation | Pipeline.AllocationIntended, Pipeline.Render, Pipeline.GdFailureOrder |
