# bye-bg in Dafny

bye-bg removes image backgrounds in the browser. A web worker runs the
segmentation model and composites the result over a transparent, coloured or
image backdrop. The page talks to it through `init` / `process` / `dispose`
requests and `progress` / `result` / `error` events. There are two front ends:

- a single-image page that tracks which request is current;
- a batch queue that dispatches one pending item at a time and re-dispatches
  100 ms after each terminal event.

This project models the logic of both front ends, the worker's message
protocol, the download naming rules, and the small pure rules of the user
interface. It proves properties of each.

Modules, one per source file:

- `Base`: optional values, ASCII lower-casing, decimal rendering, `Math.round`, `slice`, subsequences.
- `Protocol`: the wire messages shared by the page, the queue and the worker.
- `Batch`: the batch queue (`useBatchProcessor`), as a class over a sequence of items. `BatchScenarios` holds runs of it.
- `App`: the single-image page's request correlation, as a class. `AppScenarios` holds runs of it.
- `InferenceWorker`: the worker's replies to each request. The background-removal library becomes a recorded oracle: the progress callbacks it makes, and whether removal and encoding succeed.
- `Download`: output file names, the separate downloads, and the ZIP entry names with their de-duplication loop.
- `RecentColors`, `ColorPicker`: the recent-colours list and the hex field.
- `Shortcuts`, `KeyboardShortcuts`: the shortcut table and the key-down listener.
- `ProcessingPanel`, `SettingsPanel`, `DeviceCapabilities`: phase status, quality warnings and the memory tier.

The "at most one item processing" property of the batch queue does not hold
unconditionally. Stopping and restarting while a request is out dispatches a
second item beside it (`BatchScenarios.RestartWhileProcessing`). In the
model, where every step reads the queue as it is at that moment, restarting
before a scheduled re-dispatch has fired also ends with two items processing
(`BatchScenarios.RestartBeforeTimer`). The property is proved
under the single-worker discipline instead: at most one request outstanding or
scheduled (`SingleFlight`). Every operation keeps that discipline, except a
start that is neither a no-op nor made from an idle queue.

## Model

| member | source | states |
|---|---|---|
| Batch.FirstPending | src/hooks/useBatchProcessor.ts:97 | -1 exactly when no item is pending, else the lowest pending index |
| Batch.FindFirstPending | src/hooks/useBatchProcessor.ts:97 | the `findIndex` scan loop returns `FirstPending` of the list |
| Batch.IndexOfId | src/hooks/useBatchProcessor.ts:153 | -1 exactly when no item has the id, else the first index that has it |
| Batch.FindById | src/hooks/useBatchProcessor.ts:153 | the handler's `findIndex` scan loop returns `IndexOfId` |
| Batch.RemoveId | src/hooks/useBatchProcessor.ts:75 | the survivors are exactly the items with another id; never longer |
| Batch.RemoveIdAppend | src/hooks/useBatchProcessor.ts:75 | the filter distributes over concatenation, so it keeps order |
| Batch.RemoveUnknownId | src/hooks/useBatchProcessor.ts:66-77 | removing an id no item carries leaves the list unchanged |
| Batch.RemoveIdKeepsDistinct | src/hooks/useBatchProcessor.ts:66-77 | removal keeps item ids pairwise distinct |
| Batch.CountStatus | src/hooks/useBatchProcessor.ts:220-222 | a status count never exceeds the item total |
| Batch.CountStatusUpdate | src/hooks/useBatchProcessor.ts:162-209 | replacing one item moves one unit from the old status's count to the new one's |
| Batch.CountStatusAppend | src/hooks/useBatchProcessor.ts:63 | counts add up over appended files |
| Batch.CountsPartition | src/hooks/useBatchProcessor.ts:220-222 | pending + processing + completed + failed counts equal the total |
| Batch.AtMostOneProcessingFromFlight | src/hooks/useBatchProcessor.ts:94-129 | distinct ids, at most one outstanding request, and processing only with a request out imply at most one processing item |
| Batch.UpdateTracked | src/hooks/useBatchProcessor.ts:162-209 | replacing one item by one with the same id keeps ids distinct and keeps "processing iff outstanding" |
| Batch.DropUnusedFlight | src/hooks/useBatchProcessor.ts:153-154 | forgetting the request of an id no item carries keeps the bookkeeping |
| Batch.DispatchRequest | src/hooks/useBatchProcessor.ts:112-128 | the request carries the item's id and bytes, and tier, refinement, colour, background bytes, export format and device from the options of the moment; `image` mode whenever background bytes are set |
| Batch.ApplyEvent | src/hooks/useBatchProcessor.ts:156-209 | the per-event update of the named item; `ApplyEventSettles` states what each event kind does to it |
| Batch.ApplyEventSettles | src/hooks/useBatchProcessor.ts:156-213 | a result completes the item with its result fields; an error fails it with the message; both clear progress; progress changes only progress; the id is kept |
| Batch.BatchProcessor.constructor | src/hooks/useBatchProcessor.ts:36-40 | empty list, not running, index -1, nothing posted |
| Batch.BatchProcessor.SetOptions | src/hooks/useBatchProcessor.ts:42-44 | replaces the options and nothing else |
| Batch.BatchProcessor.AddFiles | src/hooks/useBatchProcessor.ts:46-64 | appends one pending item per file in order, with fresh ids; keeps the invariants |
| Batch.BatchProcessor.RemoveItem | src/hooks/useBatchProcessor.ts:66-77 | the list becomes `RemoveId` of the old one; flags and index untouched |
| Batch.BatchProcessor.ClearAll | src/hooks/useBatchProcessor.ts:79-92 | no items, run flag and `isProcessing` false, index -1 |
| Batch.BatchProcessor.ProcessNext | src/hooks/useBatchProcessor.ts:94-129 | no-op unless running with a worker; with no pending item clears flag, `isProcessing` and index; else marks the first pending item processing and posts its request |
| Batch.BatchProcessor.StartProcessing | src/hooks/useBatchProcessor.ts:131-136 | no-op while running; otherwise sets the flags and dispatches exactly as `ProcessNext` does; keeps the discipline from a running or idle queue |
| Batch.BatchProcessor.StopProcessing | src/hooks/useBatchProcessor.ts:138-142 | clears flag, `isProcessing` and index; changes no item |
| Batch.BatchProcessor.RunScheduled | src/hooks/useBatchProcessor.ts:196 | a fired re-dispatch timer runs `processNextItem` once and is consumed |
| Batch.BatchProcessor.HandleMessage | src/hooks/useBatchProcessor.ts:149-213 | an event for an unknown id changes nothing; otherwise only the item with that id changes, by `ApplyEvent`; terminal events schedule one re-dispatch |
| Batch.BatchProcessor.OneProcessing | src/hooks/useBatchProcessor.ts:94-213 | under the single-worker discipline at most one item is processing |
| BatchScenarios.FirstCompletes | src/hooks/useBatchProcessor.ts:131-196 | start, first result and the timer leave a completed, b processing, c pending |
| BatchScenarios.EndToEnd | src/hooks/useBatchProcessor.ts:94-222 | success, failure, success: 2 completed, 1 failed, 0 pending, idle, 3 requests |
| BatchScenarios.CountThree | src/hooks/useBatchProcessor.ts:220-222 | a three-item count is the sum of its three indicator terms |
| BatchScenarios.IdempotentStart | src/hooks/useBatchProcessor.ts:131-136 | two starts in a row post one request |
| BatchScenarios.StopLetsInFlightFinish | src/hooks/useBatchProcessor.ts:138-142 | after stop the outstanding result still lands and its re-dispatch posts nothing |
| BatchScenarios.OptionsReadAtDispatch | src/hooks/useBatchProcessor.ts:112 | each request carries the options current at its own dispatch |
| BatchScenarios.RemovedItemStalls | src/hooks/useBatchProcessor.ts:66-77 | removing the processing item drops its result; the queue stays running with a pending item and nothing out |
| BatchScenarios.RestartWhileProcessing | src/hooks/useBatchProcessor.ts:131-142 | stop then start while an item is processing leaves two items processing |
| BatchScenarios.RestartBeforeTimer | src/hooks/useBatchProcessor.ts:131-142 | in the model, with no item processing, a start before the re-dispatch timer fires still ends with two processing |
| Base.Round | src/workers/inferenceWorker.ts:127 | `Math.round`: the integer within half a unit below or up to half a unit above, halves rounding up |
| Base.NatToStringInjective | src/lib/download.ts:61 | different counters are written as different decimal strings |
| Base.LowerIdempotent | src/hooks/useRecentColors.ts:21 | lower-casing twice is lower-casing once |
| Base.Lower | src/hooks/useRecentColors.ts:21 | `toLowerCase`, folding A to Z; `LowerIdempotent` states it is idempotent |
| Base.NatToString | src/lib/download.ts:58 | the decimal digits of a counter; at least one digit, all digits, one digit exactly below 10 |
| Protocol.FormatName | src/lib/download.ts:13 | the extension text of a format, `png` or `webp`; `Download.FormatNamePlain` states it holds no dot or slash |
| Protocol.PercentOf | src/App.tsx:102-105 | a percentage exists exactly when loaded and total are present and total > 0, and then equals loaded/total·100 |
| Protocol.PercentInRange | src/App.tsx:102-105 | when loaded is between 0 and total the percentage is between 0 and 100 |
| Protocol.EffectiveBgMode | src/App.tsx:164 | background bytes force `image` mode, else the chosen mode |
| App.RecommendedTier | src/App.tsx:66-70 | `fast` exactly without WebGPU; never `pro` |
| App.BackendLabel | src/App.tsx:73-77 | WASM exactly without WebGPU; FP16 or FP32 by shader support |
| App.StatusLabel | src/App.tsx:245-249 | while processing the progress message or `Processing…`; otherwise `Done` exactly when there is an output URL, else `Idle` |
| App.Accepts | src/App.tsx:98-132 | the page's acceptance test: the current id, or `init` for progress; `AcceptsOnlyCurrent` states its consequences |
| App.ProcessRequest | src/App.tsx:156-170 | a process request with the given id and image; tier, refinement, colour and export format from the settings; the background bytes; `image` mode when they are set; no device |
| App.AcceptsOnlyCurrent | src/App.tsx:98-132 | results and errors are applied only for the current request; with none current only `init` progress passes |
| App.LastProcessIn | src/App.tsx:152-153 | the last posted process request is one of the posted requests |
| App.LastProcessAppend | src/App.tsx:152-153 | posting a process request makes it the last one |
| App.Session.constructor | src/App.tsx:43-61 | the initial state: quality tier, refine on, transparent, `#0f172a`, PNG, `Detecting…`, loading |
| App.Session.PostInit | src/App.tsx:88-95 | posts `init` with the current tier and refine flag when there is a worker |
| App.Session.OnDetection | src/App.tsx:63-84 | failure sets `error` status and label; success sets capabilities, tier, label and ready |
| App.Session.SetSettings | src/App.tsx:88-136 | replaces the settings; a changed export format posts `init` again |
| App.Session.OnMessage | src/App.tsx:96-132 | rejected events change nothing; progress sets the view; a result sets output, stops processing and clears the id; an error sets the message and clears the id |
| App.Session.Issue | src/App.tsx:152-155 | the fresh id becomes current, differs from every earlier request's id, and its request is posted |
| App.Session.HandleFile | src/App.tsx:138-171 | caches the image, clears the output; with a worker issues a request with `Starting…` |
| App.Session.Reprocess | src/App.tsx:173-198 | without a cached image or worker nothing changes; otherwise clears the output and issues a request with `Reprocessing…` |
| App.Session.OnBgImageChange | src/App.tsx:206-217 | no file changes nothing; a file sets the bytes, URL and `image` mode |
| App.Session.Reset | src/App.tsx:227-243 | clears input, output, background, processing and progress; keeps the current request id |
| AppScenarios.StaleAndRepeatedResults | src/App.tsx:109-124 | a superseded request's result is ignored; the current one is applied once; a repeat is ignored |
| AppScenarios.InitProgressShown | src/App.tsx:98-108 | `init` progress is shown with no request current; stale progress is not |
| AppScenarios.ResultAfterReset | src/App.tsx:109-124 | a result arriving after reset still sets the output |
| AppScenarios.ReprocessNeedsImage | src/App.tsx:174 | reprocess without a cached image posts nothing |
| InferenceWorker.ModelFor | src/workers/inferenceWorker.ts:75-80 | the model for each tier; `ModelForBijective` states that tiers and models correspond one to one |
| InferenceWorker.IsDownloadPhase | src/workers/inferenceWorker.ts:5 | a phase is a download phase when it starts with `fetch:` |
| InferenceWorker.IsComputePhase | src/workers/inferenceWorker.ts:6 | a phase is a compute phase when it starts with `compute:` |
| InferenceWorker.ModelForBijective | src/workers/inferenceWorker.ts:75-80 | each tier selects its own model and every model is selected by some tier |
| InferenceWorker.DeviceConfig | src/workers/inferenceWorker.ts:74-90 | no device config exactly for a missing or `auto` device, else the device itself |
| InferenceWorker.PhaseKindsExclusive | src/workers/inferenceWorker.ts:5-6 | a download phase is never a compute phase |
| InferenceWorker.ExportMime | src/workers/inferenceWorker.ts:172-175 | `image/webp` exactly for WebP, `image/png` exactly for PNG |
| InferenceWorker.BackdropFor | src/workers/inferenceWorker.ts:158-168 | a fill exactly in colour mode, with the colour; an image drawn exactly in image mode with bytes; else nothing |
| InferenceWorker.CallbackPct | src/workers/inferenceWorker.ts:98 | the percentage times total is loaded·100 when total > 0; 0 otherwise |
| InferenceWorker.ProgressText | src/workers/inferenceWorker.ts:126-130 | download phases get a message that starts `Downloading model ` and ends in `%`; compute phases `Processing image…`; other phases `Processing…` |
| InferenceWorker.ProgressTextDownload | src/workers/inferenceWorker.ts:126-127 | a download message carries the percentage rounded half up: `Downloading model n%` for the `n` within half a point of it |
| InferenceWorker.Forward | src/workers/inferenceWorker.ts:97-138 | every forwarded event is progress for the request with loaded and total; never more events than callbacks |
| InferenceWorker.ForwardGap | src/workers/inferenceWorker.ts:119-120 | every forwarded download event is more than 2 points from the event forwarded just before it, of any kind, or from the starting value for the first |
| InferenceWorker.ForwardAllWithoutDownload | src/workers/inferenceWorker.ts:119 | with no download phase every callback is forwarded, in order |
| InferenceWorker.ForwardKeepsNonDownload | src/workers/inferenceWorker.ts:119-137 | in any run, the forwarded non-download events are, in order, exactly one event per non-download callback |
| InferenceWorker.Reply | src/workers/inferenceWorker.ts:37-203 | everything posted for one message; `ControlReplies` and `ProcessReplyShape` state its shape |
| InferenceWorker.Outcome | src/workers/inferenceWorker.ts:147-201 | the removal's error, or compositing then the result or the encoding error; `ProcessReplyShape` states that exactly one terminal event ends the reply |
| InferenceWorker.ControlReplies | src/workers/inferenceWorker.ts:39-58 | `init` and `dispose` get exactly one progress reply with their own id and phase; any other type gets no reply and makes no library call |
| InferenceWorker.ProcessReplyShape | src/workers/inferenceWorker.ts:82-201 | at least two events, all with the request id; all but the last are progress and the last is terminal; it is a result exactly when removal and encoding both succeed |
| InferenceWorker.ProcessCallsShape | src/workers/inferenceWorker.ts:93-176 | removal is called with the tier's model and device config; compositing follows only a successful removal, with the backdrop and export type |
| InferenceWorker.Worker.constructor | src/workers/inferenceWorker.ts:35 | `lastTier` starts as quality; nothing posted |
| InferenceWorker.Worker.ForwardCallbacks | src/workers/inferenceWorker.ts:92-138 | the throttling loop posts exactly `Forward` of the callbacks |
| InferenceWorker.Worker.RunProcess | src/workers/inferenceWorker.ts:60-202 | posts `Preparing…`, the forwarded progress and the outcome; records the library calls |
| InferenceWorker.Worker.OnMessage | src/workers/inferenceWorker.ts:37-203 | posts `Reply` and records `LibraryCalls`; only `init` changes `lastTier` |
| Download.ExtensionAt | src/lib/download.ts:12 | the extension pattern matches at a position: a dot, then at least one character up to the end with no dot or slash |
| Download.LastDot | src/lib/download.ts:12 | the index of the last dot, or -1 |
| Download.StripExtension | src/lib/download.ts:12 | the name is unchanged exactly when the pattern matches nowhere; otherwise the result is the prefix before the match |
| Download.OutputFilename | src/lib/download.ts:11-14 | the stripped name, `-bye-bg.` and the format; `StripOutputFilename` states that its extension is exactly the format |
| Download.StripOutputFilename | src/lib/download.ts:51-56 | stripping an output name removes exactly the format extension |
| Download.ExtensionAtUnique | src/lib/download.ts:12 | the extension pattern matches at one position at most |
| Download.Candidate | src/lib/download.ts:58-61 | the duplicate name for a counter; `CandidateInjective` and `CandidateIsNotOutput` state its properties |
| Download.CandidateInjective | src/lib/download.ts:58-61 | different counters give different duplicate names |
| Download.CandidateIsNotOutput | src/lib/download.ts:51-61 | a duplicate name is never an output name |
| Download.CompletedWithResult | src/lib/download.ts:27 | keeps exactly the completed items that have a result |
| Download.CompletedWithResultAppend | src/lib/download.ts:27 | the filter keeps list order |
| Download.DownloadBatchItem | src/lib/download.ts:16-21 | a download exactly when the result has a non-empty URL, saved under the output name |
| Download.DownloadsAll | src/lib/download.ts:23-34 | when every result has a URL, each item is saved once, in order, under its output name |
| Download.DownloadsFromItems | src/lib/download.ts:23-34 | every download comes from one of the items |
| Download.DownloadAllSeparate | src/lib/download.ts:23-34 | the loop produces `Downloads` of the completed items |
| Download.NamesMember | src/lib/download.ts:46-64 | a name is used exactly when some earlier entry carries it |
| Download.NameRuleFresh | src/lib/download.ts:54-62 | the chosen name is never already used |
| Download.ZipNamesDistinct | src/lib/download.ts:46-66 | the archive's entry names are pairwise distinct |
| Download.ZipFirstKeepsName | src/lib/download.ts:51-54 | an item whose output name no earlier item shares keeps that name |
| Download.ZipEntries | src/lib/download.ts:36-66 | nothing when no item is completed with a result; else one entry per item, in order, with its bytes and the name the rule picks |
| Download.FirstFree | src/lib/download.ts:55-61 | the counter loop ends at the smallest counter from 1 whose name is free |
| Download.BelowExcludes | src/lib/download.ts:58-59 | a counter not yet tried has not produced a tried name |
| RecentColors.Without | src/hooks/useRecentColors.ts:24 | keeps exactly the entries that differ from the colour up to case |
| RecentColors.WithoutIsSubsequence | src/hooks/useRecentColors.ts:24 | the filter keeps order |
| RecentColors.WithoutNothing | src/hooks/useRecentColors.ts:24 | a list with no matching entry is unchanged |
| RecentColors.AddRecent | src/hooks/useRecentColors.ts:20-35 | the lower-cased colour comes first; at most 5 entries; no other entry equals it up to case; the rest come from the old list |
| RecentColors.AddRecentKeepsOrder | src/hooks/useRecentColors.ts:24-25 | after the new colour come the first four kept earlier entries, in their order; all of them when fewer than 5 |
| RecentColors.AddRecentIdempotent | src/hooks/useRecentColors.ts:20-35 | adding the same colour twice is adding it once |
| RecentColors.ClearRecent | src/hooks/useRecentColors.ts:37-44 | the list becomes empty |
| RecentColors.AddAfterClear | src/hooks/useRecentColors.ts:37-44 | after clearing, the next colour is the only entry |
| ColorPicker.IsValidHex | src/lib/ui/ColorPicker.tsx:69 | a hash and exactly six hexadecimal digits, either case; `NormalizeSixDigits` and `ValidIsNormal` relate it to normalising |
| ColorPicker.NormalizeHexInput | src/lib/ui/ColorPicker.tsx:61-64 | empty stays empty; otherwise the result starts with `#`, is the input or `#` plus it, and input already starting with `#` is kept |
| ColorPicker.NormalizeIdempotent | src/lib/ui/ColorPicker.tsx:61-64 | normalising twice is normalising once |
| ColorPicker.NormalizeSixDigits | src/lib/ui/ColorPicker.tsx:61-71 | six hex digits, with or without the hash, normalise to a valid colour |
| ColorPicker.ValidIsNormal | src/lib/ui/ColorPicker.tsx:61-71 | a valid colour is left alone by normalising |
| ColorPicker.FilteredRecent | src/lib/ui/ColorPicker.tsx:92-94 | keeps exactly the recent colours whose lower case is not a preset and not the current colour up to case, in order |
| ColorPicker.FilteredExcludesPresets | src/lib/ui/ColorPicker.tsx:92-94 | with lower-case presets, no shown colour equals a preset or the current colour up to case |
| ColorPicker.DefaultPresetsLower | src/lib/ui/ColorPicker.tsx:7 | the default presets are lower-case |
| ColorPicker.Picker.constructor | src/lib/ui/ColorPicker.tsx:43-47 | the field starts at the current colour |
| ColorPicker.Picker.ValueChanged | src/lib/ui/ColorPicker.tsx:49-51 | a new colour from the parent resets the field to it |
| ColorPicker.Picker.OpenPanel | src/lib/ui/ColorPicker.tsx:112-128 | the popover opens; the colour, the field, the recent list and the applied colours are unchanged |
| ColorPicker.Picker.InputChange | src/lib/ui/ColorPicker.tsx:58-72 | the field shows the normalised text; `onChange` is called with it exactly when it is valid |
| ColorPicker.Picker.InputBlur | src/lib/ui/ColorPicker.tsx:74-79 | invalid text is replaced by the current colour; valid text stays |
| ColorPicker.Picker.SelectColor | src/lib/ui/ColorPicker.tsx:81-85 | applies the colour, records it as recent and closes the panel |
| ColorPicker.Picker.PickerClose | src/lib/ui/ColorPicker.tsx:87-89 | records the current colour as recent |
| ColorPicker.Picker.Shown | src/lib/ui/ColorPicker.tsx:185-189 | at most 5 swatches, in recent order, none a preset or the current colour |
| ColorPicker.SelectThenClose | src/lib/ui/ColorPicker.tsx:81-89 | picking a swatch and blurring records it once and applies it once |
| Shortcuts.Table | src/lib/shortcuts/config.ts:7-62 | the six entries in table order; `TableIdsOnce` and `TableKeysDistinct` state its properties |
| Shortcuts.Enabled | src/lib/shortcuts/config.ts:15-60 | each entry's enabling condition; `ProcessingOnlyHelp` and `ReprocessImpliesOthers` state its consequences |
| Shortcuts.IdNameInjective | src/lib/shortcuts/types.ts:1 | distinct identifiers are spelled differently |
| Shortcuts.Entry | src/lib/shortcuts/config.ts:7-62 | the entry for an identifier carries that identifier |
| Shortcuts.TableIdsOnce | src/lib/shortcuts/config.ts:7-62 | six entries; each identifier's entry sits at its own position |
| Shortcuts.TableIdsDistinct | src/lib/shortcuts/config.ts:7-62 | no identifier appears twice |
| Shortcuts.EntryKeyFolded | src/lib/shortcuts/config.ts:7-62 | each entry's key in lower case |
| Shortcuts.TableKeysDistinct | src/lib/shortcuts/config.ts:7-62 | no two entries' keys agree up to case |
| Shortcuts.ProcessingOnlyHelp | src/lib/shortcuts/config.ts:15-60 | while processing only help is enabled |
| Shortcuts.ReprocessImpliesOthers | src/lib/shortcuts/config.ts:15-51 | reprocess enabled implies download, copy, reset and upload enabled |
| Shortcuts.Find | src/lib/shortcuts/config.ts:65 | the index of the first entry with that identifier, or -1 exactly when none has it |
| Shortcuts.ShortcutLabel | src/lib/shortcuts/config.ts:64-67 | the first matching entry's short label, else empty; `ShortcutLabelKnown`, `ShortcutLabelUnknown` and `Labels` state it |
| Shortcuts.ShortcutLabelUnknown | src/lib/shortcuts/config.ts:64-67 | an unknown identifier has the empty label |
| Shortcuts.ShortcutLabelKnown | src/lib/shortcuts/config.ts:64-67 | a known identifier's label is its entry's short label |
| Shortcuts.Labels | src/lib/shortcuts/config.ts:3-67 | the six labels, with the platform's modifier sign |
| KeyboardShortcuts.Typing | src/lib/shortcuts/useKeyboardShortcuts.ts:22-29 | the target is an input, a text area or editable content; `TypingDoesNothing` states the effect |
| KeyboardShortcuts.Matches | src/lib/shortcuts/useKeyboardShortcuts.ts:33-43 | command modifier, shift, alt and the case-folded key all agree with the entry; `UnambiguousMatch` states no press matches two entries |
| KeyboardShortcuts.Dispatch | src/lib/shortcuts/useKeyboardShortcuts.ts:20-61 | the effect of a key press on a table; `DispatchRuns` and `DispatchEffect` state when a handler runs and what is announced |
| KeyboardShortcuts.FirstMatchFrom | src/lib/shortcuts/useKeyboardShortcuts.ts:31-43 | the first matching entry from a position, or -1 exactly when none matches |
| KeyboardShortcuts.HandleKeyDown | src/lib/shortcuts/useKeyboardShortcuts.ts:20-68 | the listener loop has exactly the effect `Dispatch` gives, and none while disabled |
| KeyboardShortcuts.DispatchRuns | src/lib/shortcuts/useKeyboardShortcuts.ts:22-58 | a handler runs exactly when the key is not typed into a field, its entry matches, is enabled and has a handler |
| KeyboardShortcuts.UnambiguousMatch | src/lib/shortcuts/useKeyboardShortcuts.ts:31-58 | no key press matches two entries |
| KeyboardShortcuts.DispatchEffect | src/lib/shortcuts/useKeyboardShortcuts.ts:49-57 | the default is prevented exactly when a handler runs, and the entry's description is announced |
| KeyboardShortcuts.TypingDoesNothing | src/lib/shortcuts/useKeyboardShortcuts.ts:22-29 | keys typed into an input, text area or editable element do nothing |
| KeyboardShortcuts.SaveKey | src/lib/shortcuts/useKeyboardShortcuts.ts:33-41 | control- or command-S, in either case, downloads when an output is ready |
| KeyboardShortcuts.ShiftedSaveKey | src/lib/shortcuts/useKeyboardShortcuts.ts:37 | control-shift-S matches nothing |
| ProcessingPanel.IndexOf | src/lib/ui/ProcessingPanel.tsx:27-28 | the first position of the value, or -1 exactly when absent |
| ProcessingPanel.GetPhaseStatus | src/lib/ui/ProcessingPanel.tsx:23-33 | `getPhaseStatus` as written; `StatusByRank` and `ShownPhaseStatus` state what it returns |
| ProcessingPanel.IndexOfIsRank | src/lib/ui/ProcessingPanel.tsx:26-28 | a phase's position in the order is its rank; the error phase has -1 |
| ProcessingPanel.StatusByRank | src/lib/ui/ProcessingPanel.tsx:23-33 | the status by ranks: error, then done, then active, then pending |
| ProcessingPanel.ShownPhaseStatus | src/lib/ui/ProcessingPanel.tsx:23-33 | for listed phases: error when current with an error; done when complete or passed; active when current; pending later or in the error phase |
| ProcessingPanel.StatusMonotone | src/lib/ui/ProcessingPanel.tsx:26-32 | without an error a phase only moves forward as the pipeline advances |
| ProcessingPanel.OneActive | src/lib/ui/ProcessingPanel.tsx:31 | at most one listed phase is active |
| ProcessingPanel.IsActive | src/lib/ui/ProcessingPanel.tsx:107-109 | active exactly in download, compute or composite |
| ProcessingPanel.HasError | src/lib/ui/ProcessingPanel.tsx:110 | always in the error phase; elsewhere exactly when the message is non-empty |
| SettingsPanel.QualityWarning | src/lib/ui/SettingsPanel.tsx:58-64 | the recommended tier gets none; any warning is one of the three messages |
| SettingsPanel.WarningCases | src/lib/ui/SettingsPanel.tsx:58-64 | the exact conditions for each message, the FP16 rule first, and for no warning |
| SettingsPanel.DetectedWarnings | src/lib/ui/SettingsPanel.tsx:58-64 | with detected capabilities: the recommended tier has no warning, fast warns exactly on WebGPU, pro unless WebGPU has FP16 |
| DeviceCapabilities.DeviceMemoryTier | src/lib/capabilities.ts:21-27 | a tier from 0 to 3 |
| DeviceCapabilities.TierBands | src/lib/capabilities.ts:23-26 | 3 from 12, 2 from 8, 1 from 4, else 0 |
| DeviceCapabilities.TierMonotone | src/lib/capabilities.ts:23-26 | more memory never lowers the tier |
| DeviceCapabilities.TierUnreported | src/lib/capabilities.ts:22 | unreported memory counts as 4, tier 1 |

## Left out

- Object URLs: `URL.createObjectURL` results are parameters. Revocation, blobs, thumbnails and canvas drawing are not modelled.
- Clocks: `performance.now`, `Date`, the 150 ms download delay and request-id generation are left out. Fresh ids are parameters, with a precondition that they were not issued before. The 100 ms re-dispatch timer is a counter of scheduled calls that a separate step fires.
- The worker's `timings`, `modelName` and `currentPhase` bookkeeping are left out. They only feed the payload's timing fields.
- The background-removal library, bitmap decoding and image encoding are an oracle (`LibraryRun`). Its callbacks and outcomes are given; the calls made to it are recorded.
- `toFixed` in the `Processed in …s` message is a `seconds` string parameter of `App.Session.OnMessage`: floating-point formatting.
- `toLowerCase` folds ASCII letters only.
- Floating point: percentages are reals.
- `DeviceCapabilities.DeviceMemoryTier` reads `navigator.deviceMemory` as a parameter.
- `detectWebGPU` queries the GPU adapter, so its result is a parameter of `App.Session.OnDetection`.
- Local-storage loading and saving of recent colours is I/O. The list starts from a parameter.
- React's render timing is not modelled: stale closures, batched state updates and effects re-running. Each handler reads the state of the moment.
- The ZIP loop's skip of an item without output bytes has no branch. The filter before it only keeps items with a result, and JavaScript treats every byte array as true.
- The ZIP compression, the archive's file name and the download click are not modelled. `Download.ZipEntries` returns the entries.
- `downloadFile` and the `handleDownload` link in the single-image page only click a link.
- The popover, the drag colour picker, the upper-cased display and the screen-reader announcement timeout are presentation. The announcement itself is part of `Effect`.
- The batch handler applies a progress event to the named item whatever its status, as the code does.
- `removeItem` leaves `currentIndex` alone, as the code does.
- BatchScenarios.RestartBeforeTimer and Batch.BatchProcessor.RunScheduled: the timer reads the queue as it is when it fires. In the source the timer calls the `processNextItem` of the render in which the result arrived, and that render still shows the finished item as processing and the next one as pending. So after stop, result and start, the source's timer posts the item that start just dispatched a second time, and the third item stays pending. The model's run instead ends with the second and third items both processing.
- Removing the item being processed stalls the queue: its result finds no item and schedules nothing (`BatchScenarios.RemovedItemStalls`). The queue's item view hides the remove button while an item is processing.
- `KeyboardShortcuts.HandleKeyDown` takes the shortcut table as a parameter. The listener always receives `Shortcuts.Table`.
- `ColorPicker.FilteredRecent` compares the lower-cased recent colour with the presets as given. A preset with capitals is then not excluded, so `ColorPicker.FilteredExcludesPresets` assumes lower-case presets, as the defaults are.
