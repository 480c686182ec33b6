# opt — a verified model of the batch image optimiser

opt is a desktop application for optimising images in batches. The user selects
files and directories. The back end (Rust) walks them for PNG and JPEG images and
writes an optimised copy of each into a fresh `opt`, `opt_1`, … directory. It can
also write a WebP version. The front end (TypeScript/React) does three things:

- it persists the options in local storage;
- it offers a three-way mode selector and the quality controls;
- it shows the per-file results and the overall compression ratio.

This project models, in Dafny:

- `optimize.dfy` (module `Optimize`): models `src/optimize.ts`.
  - It holds the options record and its defaults.
  - It holds the structural check `isOption` and the merge onto the defaults.
  - It holds the local-storage store as a class (`OptionsStore`) whose `Save` and `Load` change and read its `items` map.
  - It holds the `optimize` call wrapper, with the dialog answer and the engine call as parameters.
  - It holds the data types shared with the back end.
- `option_editor.dfy` (module `OptionEditor`): models `src/components/OptionEditor.tsx`.
  - It holds the mode ↔ two booleans mapping.
  - It holds the one-field handlers.
- `result_table.dfy` (module `ResultTable`): models `src/components/ResultTable.tsx`.
  - It holds the totals fold, the aggregate and per-row ratios, and the good/bad classification.
- `app.dfy` (module `App`): models `src/App.tsx` as classes.
  - `Selection`, `Runner`, `ProgressCounter` and `App` hold the state that the hooks keep.
  - Their methods change that state as the handlers do.
- `optimization.dfy` (module `Optimization`): models `src-tauri/src/optimization.rs`.
  - It holds the image filter and relative paths.
  - It holds `optimize_image`, as a specification function `ImagePlan` plus an imperative `OptimizeImage` proved equal to it.
  - It holds `create_dist_dir` as a `while` loop proved to pick the first free name.
  - It holds the `optimize` and `get_target_images` commands.
    - `optimize` runs two nested loops, each proved against a recursive specification function.
    - `get_target_images` has no loop: it collects by a recursive function.
    - Both finish with a stable in-place sort of an array.
- Supporting modules:
  - `wrappers.dfy`: `Option` and `Result`.
  - `js_number.dfy`: JavaScript division, giving NaN and infinities, and truthiness.
  - `text.dfy`: lower-casing, the lexicographic string order, and decimal rendering.
  - `paths.dfy`: the part of Rust's `std::path::Path` that is used, on components.
  - `sorting.dfy`: `slice::sort_by` as a stable insertion sort on an `array`.

The outside world enters as parameters:

- **Front end.** `JSON.parse` and `JSON.stringify` are parameters. So are the destination dialog's answer and the engine call that `invoke` reaches.
- **Back end.** A `World` value supplies everything the file system and the encoders would:
  - what the directory walk yields;
  - which paths are files and which exist;
  - file sizes;
  - whether creating a directory succeeds;
  - whether an encoder call fails, and its message.

Two behaviours of the code worth noting:

- `run` saves the options even when the destination dialog was dismissed (src/App.tsx:59-60).
- A rejected engine call leaves the run flag raised (see Findings).

## Model

| member | source | states |
|---|---|---|
| JsNumber.Div | src/components/ResultTable.tsx:39 | a quotient is finite exactly when the divisor is non-zero, and then is the real quotient; x/0 is NaN iff x is 0, +∞ for a positive x and −∞ for a negative one |
| JsNumber.SubFrom | src/components/ResultTable.tsx:39 | `x - n` is finite exactly when `n` is |
| JsNumber.MulPos | src/App.tsx:86 | multiplying by a positive constant keeps finiteness |
| JsNumber.Truthy | src/components/ResultTable.tsx:103-104 | no contract; JavaScript truthiness of a number (false only for 0 and NaN), whose meaning for the table is stated by `ResultTable.Classify` |
| JsNumber.Positive | src/components/ResultTable.tsx:104 | no contract; `x > 0`, stated through `ResultTable.Classify` (+∞ is positive, NaN is not) |
| Text.Lower | src-tauri/src/optimization.rs:30 | lower-casing keeps the length and maps each character |
| Text.LexLeReflexive | src-tauri/src/optimization.rs:68 | the string order is reflexive |
| Text.LexLeTotal | src-tauri/src/optimization.rs:68 | the string order is total |
| Text.LexLeTransitive | src-tauri/src/optimization.rs:68 | the string order is transitive |
| Text.LowerIdempotent | src-tauri/src/optimization.rs:68 | lower-casing an already lower-cased key changes nothing |
| Text.NatToString | src-tauri/src/optimization.rs:255 | `format!("{}", i)` is a non-empty string of decimal digits |
| Text.DecimalValueOfNatToString | src-tauri/src/optimization.rs:255 | the rendering reads back as the number it renders |
| Text.NatToStringInjective | src-tauri/src/optimization.rs:255 | distinct numbers give distinct names `opt_<i>` |
| Optimize.OptionKeysAreSchemaKeys | src/optimize.ts:92-100 | the seven keys the check inspects are exactly the record's keys |
| Optimize.TypeOf | src/optimize.ts:84-88 | no contract; the `typeof` of a parsed value, whose use is stated by `Optimize.NonObjectsRejected` and `Optimize.IsOptionIsSchemaConjunction` |
| Optimize.Fields | src/optimize.ts:91 | no contract; the keys of an object seen as a record (an array has none that the schema names), stated by `Optimize.IsOptionIsSchemaConjunction` and `Optimize.MergeWithoutFields` |
| Optimize.OptionalMatch | src/optimize.ts:79-85 | an absent key passes; a null value never passes; a passing boolean or number key holds a value of that kind |
| Optimize.IsOption | src/optimize.ts:87-101 | only objects and arrays pass; every array passes, and so does every object without a recognised key |
| Optimize.Merge | src/optimize.ts:66-69 | the merged record serialises to a value that passes the check; an array merges to the base unchanged |
| Optimize.LoadFrom | src/optimize.ts:60-77 | the loaded record always serialises to a passing value, and differs from the defaults only when a non-empty stored entry parsed to a passing value |
| Optimize.ToJson | src/optimize.ts:57 | the serialised record is an object with exactly the seven keys |
| Optimize.DefaultsAreAsDeclared | src/optimize.ts:46-54 | both passes on, qualities 80, PNG8 and WebP-from-optimised off |
| Optimize.LoadWithoutText | src/optimize.ts:60-62 | a missing or empty entry loads the defaults |
| Optimize.LoadUnparsable | src/optimize.ts:63-74 | text that does not parse loads the defaults |
| Optimize.LoadMalformed | src/optimize.ts:65-76 | a parsed value failing the check loads the defaults |
| Optimize.NonObjectsRejected | src/optimize.ts:87-90 | null, booleans, numbers and strings fail the check |
| Optimize.IsOptionIsSchemaConjunction | src/optimize.ts:87-101 | the check holds iff the value is an object or array and every schema key is absent or of its declared type |
| Optimize.OtherKeysIgnored | src/optimize.ts:79-101 | adding an unrecognised key changes neither the check nor the merged record |
| Optimize.MergeTakesPresentFields | src/optimize.ts:66-69 | each field of the merge is the stored value when present and the default otherwise |
| Optimize.MergeWithoutFields | src/optimize.ts:66-69 | an object or array without recognised keys passes and merges to the base |
| Optimize.FullRecordMerge | src/optimize.ts:66-70 | a serialised full record passes and merges to itself over any base |
| Optimize.SaveLoadRoundTrip | src/optimize.ts:56-77 | loading right after saving a record gives that record back, given that parse inverts stringify on it |
| Optimize.OptionsStore.constructor | src/optimize.ts:56-58 | a store starts with the given items |
| Optimize.OptionsStore.Save | src/optimize.ts:56-58 | the serialised record is written under "options"; no other key changes |
| Optimize.OptionsStore.Load | src/optimize.ts:60-77 | reading the store gives the loaded options and never fails |
| Optimize.OptimizeCall | src/optimize.ts:29-44 | no destination gives undefined without calling the engine; otherwise the engine's list or its rejection is passed through |
| OptionEditor.UpdateOptionsByOptionType | src/components/OptionEditor.tsx:19-26 | WebP on unless "optimize only", optimisation on unless "WebP only", the other five fields copied |
| OptionEditor.GetOptimizeType | src/components/OptionEditor.tsx:27-35 | "webp" iff WebP only on, "optimize" iff optimisation only on, "both" iff the two agree |
| OptionEditor.UpdateNeverDisablesBoth | src/components/OptionEditor.tsx:19-26 | a record from the selector always has a pass on |
| OptionEditor.ModeRoundTrip | src/components/OptionEditor.tsx:196-201 | selecting a mode and reading it back gives that mode |
| OptionEditor.ModeRestores | src/components/OptionEditor.tsx:196-201 | re-selecting the shown mode restores any record with a pass on |
| OptionEditor.BothOffIsNotRestored | src/components/OptionEditor.tsx:27-35 | with both passes off the mode reads as "both" and re-selecting it changes the record |
| OptionEditor.OnJpgQualityChange | src/components/OptionEditor.tsx:219-224 | only the JPEG quality changes, to the slider value |
| OptionEditor.OnPngCompressorChange | src/components/OptionEditor.tsx:230-235 | PNG8 on iff "imagequant" is selected; nothing else changes |
| OptionEditor.OnPng8QualityChange | src/components/OptionEditor.tsx:250-255 | only the PNG8 quality changes |
| OptionEditor.OnWebpSourceChange | src/components/OptionEditor.tsx:267-272 | WebP-from-optimised on iff "optimized" is selected; nothing else changes |
| OptionEditor.OnWebpQualityChange | src/components/OptionEditor.tsx:287-292 | only the WebP quality changes |
| OptionEditor.HandlersKeepMode | src/components/OptionEditor.tsx:219-292 | no quality or compressor handler changes the mode shown |
| ResultTable.Step | src/components/ResultTable.tsx:33-36 | a step never lowers either total, and a result with a non-empty original raises the first |
| ResultTable.Reduce | src/components/ResultTable.tsx:32-38 | the fold never lowers its start, and a list of errors alone leaves it unchanged |
| ResultTable.Successes | src/components/ResultTable.tsx:32-38 | the results of a list are exactly its result entries |
| ResultTable.ErrorStepIsIdentity | src/components/ResultTable.tsx:33-36 | an error leaves the accumulator unchanged |
| ResultTable.ReduceIsSumOfResults | src/components/ResultTable.tsx:32-38 | the fold adds the sums of the original and final sizes of the results alone |
| ResultTable.SuccessesAppend | src/components/ResultTable.tsx:32-38 | the results of a concatenation are those of its parts |
| ResultTable.TotalsAppend | src/components/ResultTable.tsx:32-38 | the size totals are additive |
| ResultTable.ReduceAdditive | src/components/ResultTable.tsx:32-38 | the folded totals of a concatenation are the sums of the parts' totals |
| ResultTable.CalcReducedSize | src/components/ResultTable.tsx:30-39 | totals are the sums over results; the ratio is a number iff the original total is non-zero, and then is 1 − final/original |
| ResultTable.RowRatio | src/components/ResultTable.tsx:76-79 | 0 for an error, 1 − final/original for a result with a non-empty original |
| ResultTable.Classify | src/components/ResultTable.tsx:102-108 | good iff the ratio is positive, bad iff negative, none iff zero or NaN; +∞ is good and −∞ bad |
| ResultTable.ClassFollowsSizes | src/components/ResultTable.tsx:76-108 | a row is good iff the file shrank, bad iff it grew, unclassified iff its size is unchanged, empty originals included |
| ResultTable.RowOf | src/components/ResultTable.tsx:75-130 | an error gives an error row with its path and message; a result gives a row for its path that is good iff the file shrank and bad iff it grew |
| ResultTable.Rows | src/components/ResultTable.tsx:75-130 | one row per entry in order; error rows show path and message, result rows the sizes, ratio and class |
| ResultTable.WorkedExample | src/components/ResultTable.tsx:30-108 | 1000→400, 2000→2000 and an error total 3000→2400 at 20%, with row ratios 60% good and 0% unclassified |
| App.LastSegment | src/App.tsx:35 | the last path segment is a separator-free suffix that follows the last separator |
| App.Basenames | src/App.tsx:35 | one last segment per path |
| App.SetSizeDetectsDuplicates | src/App.tsx:35-36 | the set of names is as large as the list iff no name repeats |
| App.Selection.constructor | src/App.tsx:28-29 | nothing is selected at first |
| App.Selection.Clear | src/App.tsx:30-33 | both the paths and the images become null |
| App.Selection.SetTargetImagesFromInputs | src/App.tsx:34-43 | accepted iff the last segments are distinct and the image lookup succeeds; accepted replaces both fields with the inputs and the images found, otherwise nothing changes |
| App.Runner.constructor | src/App.tsx:53-56 | idle and without results at first |
| App.Runner.Start | src/App.tsx:57-58 | the flag is raised before the call and the results are kept |
| App.Runner.Settle | src/App.tsx:60-64 | a value or undefined saves the options and lowers the flag, only a value replacing the results; a rejection changes nothing, so a raised flag stays raised |
| App.Runner.Run | src/App.tsx:57-64 | `Start`, the call, then `Settle`: the options are saved, the flag lowered and results replaced only by a list, except after a rejection, which leaves the flag raised and nothing saved |
| App.Runner.RunSettled | src/App.tsx:57-64 | as `Run`, but the runner is idle afterwards on every path |
| App.RejectedRunStaysRunning | src/App.tsx:57-64 | a concrete rejected run leaves the runner marked running |
| App.Percentage | src/App.tsx:86 | for a non-empty selection exactly current / total × 100, between 0 and 100 while current ≤ total, 100 when all images are done and 0 before; with no images NaN for 0/0 and +∞ otherwise |
| App.PercentageMonotone | src/App.tsx:74-86 | the bar never moves back as events arrive |
| App.ProgressCounter.constructor | src/App.tsx:73-74 | the counter starts at zero |
| App.ProgressCounter.OnProgress | src/App.tsx:74-78 | one event adds one |
| App.ProgressCounter.Value | src/App.tsx:86 | no contract; the value shown is `Percentage(current, total)`, whose contract states it |
| App.App.constructor | src/App.tsx:90-92 | the options start as loaded from the store; nothing selected, runner idle |
| App.App.SetOptions | src/App.tsx:98 | the editor's record becomes the current options |
| App.App.HandleClickRun | src/App.tsx:93-96 | nothing happens without a selection; otherwise the selection is run with the current options |
| App.App.ClickRun | src/App.tsx:146-153 | while running the button does nothing; otherwise it dispatches iff there is a selection, leaves everything unchanged when it does not, and when it does leaves the post-state of a run of the current selection |
| App.App.ClickClear | src/App.tsx:139-145 | while running nothing changes; otherwise the selection is cleared |
| Paths.Parent | src-tauri/src/optimization.rs:132-134 | some iff the path has a component; it drops the last one |
| Paths.FileName | src-tauri/src/optimization.rs:124-129 | some iff the path has a component; it is the last one |
| Paths.Join | src-tauri/src/optimization.rs:144 | no contract; `Path::join` of a relative path, stated by `Paths.StripPrefix`, `Paths.StripPrefixOfJoin` and `Optimization.RelativeToRoot` |
| Paths.JoinParts | src-tauri/src/optimization.rs:37-44 | no contract; the components joined with `/`, stated by `Optimization.RelativeOfJoin` |
| Paths.Display | src-tauri/src/optimization.rs:41-43 | no contract; `to_str()` of a path, stated by `Optimization.RelativeOfJoin` and `Optimization.RelativePathStr` |
| Paths.StripPrefix | src-tauri/src/optimization.rs:135-141 | some iff the base is a component-wise prefix; the rest joined onto the base gives the path |
| Paths.StripPrefixOfJoin | src-tauri/src/optimization.rs:144 | stripping the base from base-joined-with-rel gives rel |
| Paths.NameExtension | src-tauri/src/optimization.rs:174-176 | an extension found contains no dot |
| Paths.NameStem | src-tauri/src/optimization.rs:227 | no contract; the name without its extension, as `with_extension` keeps it, stated by `Paths.NameSplitsAtExtension` |
| Paths.Extension | src-tauri/src/optimization.rs:174-176 | an extension belongs to a path with a last component and contains no dot |
| Paths.NameSplitsAtExtension | src-tauri/src/optimization.rs:174-176 | a name with an extension is its stem, a dot and the extension; a name without one is its own stem |
| Paths.WithExtension | src-tauri/src/optimization.rs:227 | replacing the extension keeps absoluteness, the number of components and the parent |
| Paths.LastDot | src-tauri/src/optimization.rs:174-176 | the position found is a dot and no later character is one |
| Paths.WithExtensionResult | src-tauri/src/optimization.rs:227 | replacing the extension keeps the directory and yields the new extension |
| Paths.LastDotIsLast | src-tauri/src/optimization.rs:174-176 | a dot with no dot after it is the one found |
| Sorting.SortBy | src-tauri/src/optimization.rs:327 | sorting leaves the array ordered by the key, a permutation of its contents, and elements with equal keys in their original order |
| Optimization.IsImageEntry | src-tauri/src/optimization.rs:25-33 | an image is a file with an extension of at least three characters |
| Optimization.ImagesHaveEncoders | src-tauri/src/optimization.rs:25-33 | every image the filter keeps has an encoder, whatever the options |
| Optimization.ImageEntries | src-tauri/src/optimization.rs:21-35 | an entry is kept iff it is a regular file whose lower-cased extension is png, jpg or jpeg |
| Optimization.ImageEntriesAppend | src-tauri/src/optimization.rs:21-35 | the filter keeps walk order |
| Optimization.ExtensionExamples | src-tauri/src/optimization.rs:26-33 | `IMG.JPG` and `a.b.png` are images |
| Optimization.NonImageExamples | src-tauri/src/optimization.rs:25-33 | a directory, `.png`, `png` and `a.png.gif` are not images |
| Optimization.RelativePathStr | src-tauri/src/optimization.rs:37-44 | the path after the root when the root is a prefix, the whole path otherwise |
| Optimization.RelativeOfJoin | src-tauri/src/optimization.rs:37-44 | a root joined with a relative path is shown as that relative path |
| Optimization.Message | src-tauri/src/optimization.rs:196-199 | an unsupported extension is reported with its lower-cased name quoted; encoder errors keep their own message |
| Optimization.RelativeToRoot | src-tauri/src/optimization.rs:123-142 | a relative path found is relative; for a selected file it is one component that joined onto the file's parent gives the file; for a directory, joined onto the directory's parent it gives the image |
| Optimization.Place | src-tauri/src/optimization.rs:123-170 | an error finding the relative path is passed on; a placement has that relative path, the output below the output directory, and the image's own size |
| Optimization.OptimizerFor | src-tauri/src/optimization.rs:184-201 | an encoder exists iff the lower-cased extension is an image extension |
| Optimization.OptimizeImage | src-tauri/src/optimization.rs:112-247 | the pushes give exactly what the step-by-step specification of one image gives |
| Optimization.OptimizeStep | src-tauri/src/optimization.rs:173-219 | at most one encoder call, none when optimisation is off; a success has one result per call; the call reads the image and writes the output file |
| Optimization.WebpStep | src-tauri/src/optimization.rs:221-244 | exactly one call when WebP is asked for and none otherwise; a success has one result per call; the call is the WebP encoder at the WebP quality writing the output with extension webp |
| Optimization.MeasuredCall | src-tauri/src/optimization.rs:203-218 | a succeeding call had no encoder error and a measurable output, and gives one result with that output's path and size |
| Optimization.EncodeAndMeasure | src-tauri/src/optimization.rs:203-218 | no contract; one encoder call, then the output's size, then one result, stated by `Optimization.MeasuredCall` (the WebP step at src-tauri/src/optimization.rs:228-240 goes through it too) |
| Optimization.WebpSource | src-tauri/src/optimization.rs:222-226 | no contract; the optimised file when both `webp_from_optimized` and optimisation are on, the original otherwise, stated by `Optimization.WebpReadsOriginalUnlessOptimized` and `Optimization.ImagePlanResults` |
| Optimization.ImagePlanResults | src-tauri/src/optimization.rs:161-244 | a success has one result per requested step, optimised file first, each from one succeeding encoder call, each carrying the image's relative path, its size and the written file's path and size; the WebP call writes the output with extension webp |
| Optimization.UnsupportedExtensionFails | src-tauri/src/optimization.rs:184-200 | an unsupported extension fails before any encoder call with "Unsupported extension: \"ext\"" |
| Optimization.EncoderChoice | src-tauri/src/optimization.rs:184-194 | MozJPEG at the JPEG quality for jpg/jpeg; imagequant at the PNG8 quality when PNG8 is on, oxipng otherwise |
| Optimization.WebpReadsOriginalUnlessOptimized | src-tauri/src/optimization.rs:221-228 | without optimisation the single encoder call converts the original to WebP |
| Optimization.PlacementOfImages | src-tauri/src/optimization.rs:123-142 | a selected file lands under its own name; an image below a selected directory keeps its path from the directory's parent, which is its reported path |
| Optimization.ReportedPath | src-tauri/src/optimization.rs:305-318 | no contract; the image's path from the selected path's parent, stated by `Optimization.PlacementOfImages`, `Optimization.OutcomesShareKey` and `Optimization.FileOutcomesShareKey` |
| Optimization.ToOutcomes | src-tauri/src/optimization.rs:296-311 | a success becomes its results in order; a failure becomes a single error with the image's path and message |
| Optimization.EntryOutcomes | src-tauri/src/optimization.rs:296-311 | no contract; the outcomes of one image, stated by `Optimization.EntryOutcomesShape` |
| Optimization.EntryOutcomesShape | src-tauri/src/optimization.rs:296-311 | a failed image gives exactly one error; a successful one as many results as steps requested |
| Optimization.EntriesOutcomesCount | src-tauri/src/optimization.rs:289-323 | at most two outcomes per image, and at least one when a step is requested |
| Optimization.PathsOutcomesCount | src-tauri/src/optimization.rs:286-325 | the batch has at most two outcomes per image found, and at least one per image when a step is asked for |
| Optimization.CandidatesBelowStep | src-tauri/src/optimization.rs:251-256 | the first k + 1 names are the first k and the next one |
| Optimization.CandidateInjective | src-tauri/src/optimization.rs:251-256 | the names `opt`, `opt_1`, `opt_2`, … are pairwise distinct |
| Optimization.CandidatesBelowSize | src-tauri/src/optimization.rs:251-256 | the first k names are k distinct paths |
| Optimization.TakenBound | src-tauri/src/optimization.rs:254-257 | the loop cannot find more taken names than existing paths, so it ends |
| Optimization.FreeIndexFrom | src-tauri/src/optimization.rs:254-257 | the index found is free and every earlier one is taken |
| Optimization.DistDirPath | src-tauri/src/optimization.rs:249-257 | the chosen directory is a child of the selected destination |
| Optimization.DistDirIsFirstFree | src-tauri/src/optimization.rs:249-257 | the chosen directory did not exist, is `opt` when that is free, and every name tried before it exists |
| Optimization.CreateDistDir | src-tauri/src/optimization.rs:249-262 | the loop chooses the first free name; it is returned when creating it succeeds, else "Failed to create \"…\"" |
| Optimization.EntriesProgress | src-tauri/src/optimization.rs:312-320 | one event per image, naming its path from the selected path's parent |
| Optimization.PathsProgress | src-tauri/src/optimization.rs:312-320 | no contract; the progress events of the whole batch, stated by `Optimization.ProgressCountsImages` and `Optimization.OptimizeCommand` |
| Optimization.ImageCount | src-tauri/src/optimization.rs:286-325 | no contract; the number of images below the selected paths, stated by `Optimization.ProgressCountsImages`, `Optimization.PathsOutcomesCount` and `Optimization.TargetsCountImages` |
| Optimization.ProgressCountsImages | src-tauri/src/optimization.rs:312-320 | the number of progress events is the number of images |
| Optimization.OutcomeKey | src-tauri/src/optimization.rs:269-274 | the key of a result is its lower-cased original path, of an error its lower-cased path; a key is already lower-case |
| Optimization.OutcomesShareKey | src-tauri/src/optimization.rs:269-274 | the results and the error of an image below a selected directory sort under its reported path |
| Optimization.FileOutcomesShareKey | src-tauri/src/optimization.rs:269-274 | the results and the error of a selected file sort under the path it is reported under, as for an image below a directory |
| Optimization.OptimizeEntries | src-tauri/src/optimization.rs:289-323 | the images of one selected path give their outcomes and events in walk order |
| Optimization.OptimizeCommand | src-tauri/src/optimization.rs:276-330 | a failure to create the output directory is returned and nothing runs; otherwise the outcomes of all images, stably sorted by lower-cased path from the order the images produced them (the results of one image share a key, so its optimised result stays before its WebP result), with one progress event per image |
| Optimization.EntriesTargets | src-tauri/src/optimization.rs:56-65 | one target per image, with its reported path and size |
| Optimization.PathsTargets | src-tauri/src/optimization.rs:54-66 | every target's size is the size of some file |
| Optimization.EntriesTargetsMembers | src-tauri/src/optimization.rs:56-65 | a target is among one path's targets iff some image of it is reported under the target's path with the target's size |
| Optimization.PathsTargetsMembers | src-tauri/src/optimization.rs:54-66 | a target is collected iff some image below some selected path is reported under its path with its size |
| Optimization.PathsTargetsSound | src-tauri/src/optimization.rs:54-66 | every collected target comes from an image below a selected path |
| Optimization.PathsTargetsComplete | src-tauri/src/optimization.rs:54-66 | every image below a selected path gives a collected target |
| Optimization.TargetsCountImages | src-tauri/src/optimization.rs:53-66 | one target image per image found |
| Optimization.GetTargetImages | src-tauri/src/optimization.rs:52-71 | all images below the selected paths, stably sorted by lower-cased path from the collected list |

## Left out

- Rendering is not modelled: the JSX layout, `bytesToSize`, `Math.round` of percentages, and the Selector, TargetImageTable and Layout components.
- Local storage, the dialogs, `downloadDir`, Tauri's `invoke`/`emit_all`/`listen` are outside the model. Each becomes a parameter or a class field.
- Numbers are exact reals. IEEE rounding is not modelled.
- Optimize.ToJson: `JSON.stringify` writes `null` for a NaN quality, and the model has no NaN quality to write.
- Optimize.Merge: keeps only the seven recognised fields. The spread in the source also copies unrecognised stored keys into the record. The editor's spreads carry them along, and `saveOptions` writes them back (src/optimize.ts:57, reached from src/App.tsx:60); the model saves only the seven.
- Text.Lower: maps ASCII letters only. It models Rust's `to_lowercase`, which folds all of Unicode; the front end does not lower-case anything.
- Optimization.Quoted: does not escape quotes, backslashes or control characters as `{:?}` would.
- Optimization.OptimizeCommand: the rayon parallel iterators are modelled as sequential loops in selection and walk order.
  - The sort is proved stable with respect to that sequential order.
  - Progress events come in walk order here; in the program they arrive in any order.
- Optimization.OptimizeCommand, Optimization.GetTargetImages: they require that every selected path has a parent. The source unwraps `parent()` and would panic.
- App.Runner.Run, App.Runner.RunSettled: the `await` (src/App.tsx:59) is one step between `Start` and `Settle`. The in-flight state is reached only by calling `Start` on its own; the progress events counted during the call, and option edits made during it, are not represented, and `App` holds no `ProgressCounter` tied to the selection's size. The settled state is unaffected, because `run` takes `paths` and `options` by value.
- Optimize.OptimizeCall, App.Runner.Run: a rejection by the destination dialog or by `downloadDir()` (src/optimize.ts:30-35) is not modelled. The answer is only a path or a cancellation. In the source such a rejection leaves `run` the way an engine rejection does, with the run flag still raised.
- Optimization.GetTargetImages: also requires a size for every image, because the source unwraps `metadata()`.
- Optimization.Place: directory creation is an oracle answer, and the file system is not updated by it or by the encoders. A later existence check does not see directories an earlier image created. The only exception is the output directory itself.
- Optimization.CreateDistDir: the counter `i` is an unbounded integer, not an `i32`. The race between the existence test and `create_dir` is not modelled.
- The encoders (`features::jpeg`, `features::png`, `features::webp`) are outside the model. An oracle says whether a call fails and with which message; the files they write are seen only through their sizes.
- Paths.Path: paths are lists of components. Not modelled:
  - `.` and `..` components;
  - trailing separators;
  - Windows prefixes and `\` separators;
  - non-UTF-8 names, for which `to_str().unwrap()` would panic.
- The walk is an oracle that yields the entries `WalkDir` reads without error. Symbolic links are not followed, matching its default.
- The deserialisation of `Options` on the Rust side is not modelled: an `f32` or `u8` might reject a value. The front end's engine call is a parameter, and `OptimizeCommand` is not connected to it by a proof.

## Findings

| source | as written | input that shows it | evidently intended | confidence | as-written member | corrected member |
|---|---|---|---|---|---|---|
| src/App.tsx:57-64 | `run` awaits `optimize` with no `try`/`finally`, so a rejection skips `setIsRunning(false)` | the engine rejects, e.g. "Failed to create \"/out/opt\"" when the output directory cannot be created | the run flag returns to false once the call settles, whatever the outcome | likely; not executed | App.RejectedRunStaysRunning | App.Runner.RunSettled |
