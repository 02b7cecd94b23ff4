# Shorts Creator: the production pipeline and its WAVE writer

Shorts Creator is a single-page application that turns a topic into the material for a short
vertical video. It drafts a script with one narration line and one image prompt per scene, then
renders one image per scene and, on request, animates single images into clips. It synthesizes
the narration as 24 kHz mono 16-bit PCM, wraps that in a WAVE file, and packages everything into
one ZIP bundle.

This project models the core of that pipeline in Dafny:

- `AudioHelper` (audio_helper.dfy): `decodeBase64ToUint8Array`'s copy loop over the binary string
  that `atob` returns, and `wrapPcmInWav`. The 44-byte header is written in place into an array
  through the `DataView` setters, and the file is proved to read back to the exact values.
- `Production` (production.dfy): the page's production state as a class, with one method per
  entry point. Those are `generateScriptDraft`, `generateAudio`, `generateSingleImage`,
  `generateSingleVideo`, `generateAllAssets`, `createZip`, `handleDownloadZip`'s file name, and
  the scene and background-music edits. Every remote service is an input parameter that says how
  the call came out.
- `AppView` (app_view.dfy): `isProcessing`, `getStatusLabel`, `getActiveSceneIndex` and
  `getActiveSubtitle`.
- `Bundle` (bundle.dfy): the folder name, the entry names of the bundle and the download name.
- `JsText` (js_text.dfy): the JavaScript string builtins these rely on: `trim`,
  `replace(/\s/g, '_')` and the decimal rendering of scene numbers.
- `Types` (types.dfy): `Scene`, `ShortsScript` and `GenerationStatus`.

Each entry point runs from its start to its end as one atomic step. Any status it sets before an
`await` and overwrites before returning is an intermediate state. The methods state the final
state in full, as a function of the old state and the call outcomes.

## Model

| member | source | states |
|---|---|---|
| AudioHelper.ToUint8 | utils/audioHelper.ts:9 | A code unit below 256 is stored unchanged in a `Uint8Array` element. |
| AudioHelper.DecodedBytes | utils/audioHelper.ts:7-10 | The decoded bytes are exactly as many as the code units of the binary string. |
| AudioHelper.DecodeBase64ToUint8Array | utils/audioHelper.ts:5-12 | The array is freshly allocated, has the string's length, and element i is code unit i stored as a byte. When every code unit is below 256 (as `atob` guarantees), every byte equals its code unit. |
| AudioHelper.ToUint32Wraps | utils/audioHelper.ts:24 | The setters' ToUint32 lands in [0, 2^32) and is congruent to its argument. It keeps a value exactly when that value already fits. |
| AudioHelper.ToUint16Wraps | utils/audioHelper.ts:34 | The same for ToUint16 and 2^16. |
| AudioHelper.TruncDiv | utils/audioHelper.ts:38 | Division followed by truncation toward zero: the quotient brackets the dividend from below for non-negative values and from above for non-positive ones. |
| AudioHelper.Le16ReadsBack | utils/audioHelper.ts:32 | A little-endian 16-bit field reads back to the value written, for every value below 2^16. |
| AudioHelper.Le32ReadsBack | utils/audioHelper.ts:24 | A little-endian 32-bit field reads back to the value written, for every value below 2^32. |
| AudioHelper.Be32ReadsBack | utils/audioHelper.ts:22 | A big-endian 32-bit field reads back to the value written, for every value below 2^32. |
| AudioHelper.ChunkIdsSpellAscii | utils/audioHelper.ts:22-44 | The four identifier constants, written big-endian, are the ASCII bytes of "RIFF", "WAVE", "fmt " and "data". |
| AudioHelper.WavHeaderBytes | utils/audioHelper.ts:21-46 | The header is the thirteen setter writes back to back, in offset order, each value converted to its field's width. |
| AudioHelper.HeaderFields | utils/audioHelper.ts:21-46 | Specification: the thirteen setter calls in offset order, each with its value, width and byte order. Their bytes are laid out by WavHeaderBytes. |
| AudioHelper.WavHeader | utils/audioHelper.ts:18-46 | Specification of the 44-byte header buffer. WavHeaderBytes gives its bytes, and WrapPcmInWav is proved to fill the buffer with exactly them. |
| AudioHelper.WavFile | utils/audioHelper.ts:48 | The file is 44 bytes longer than the payload. |
| AudioHelper.SetUint32 | utils/audioHelper.ts:22 | A 32-bit write puts the converted value's four bytes at the offset in the requested byte order and keeps every other byte. |
| AudioHelper.SetUint16 | utils/audioHelper.ts:32 | A 16-bit little-endian write puts two bytes at the offset and keeps every other byte. |
| AudioHelper.WriteRiffDescriptor | utils/audioHelper.ts:21-26 | Bytes 0-11 hold "RIFF", the file length (payload + 36) and "WAVE". Bytes 12-43 are kept. |
| AudioHelper.WriteFmtChunk | utils/audioHelper.ts:27-42 | Bytes 12-35 hold "fmt ", chunk length 16, PCM format 1, channels, sample rate, byte rate, block align and bits per sample. Bytes 0-11 and 36-43 are kept. |
| AudioHelper.WriteDataChunkHeader | utils/audioHelper.ts:43-46 | Bytes 36-43 hold "data" and the payload length. Bytes 0-35 are kept. |
| AudioHelper.WrapPcmInWav | utils/audioHelper.ts:17-49 | The blob is the 44-byte header of the WAVE specification for these parameters, followed by the payload unchanged. |
| AudioHelper.ParseWav | utils/audioHelper.ts:48 | A reader that accepts a file gives the bytes after the 44-byte header as its payload. |
| AudioHelper.WavFileFields | utils/audioHelper.ts:21-48 | Every header field sits at the offset its setter names, and the payload starts at byte 44. |
| AudioHelper.ParseWavFile | utils/audioHelper.ts:17-49 | Reading the written file gives back every field as its setter converted it, and the payload unchanged. |
| AudioHelper.WholeByteRates | utils/audioHelper.ts:38-40 | For a bit depth that is whole bytes, both divisions by 8 are exact. |
| AudioHelper.ByteRate | utils/audioHelper.ts:38 | Specification of the byte-rate value: sample rate * channels * bit depth / 8, truncated toward zero as the setter converts it. It is exact for whole-byte depths by WholeByteRates. |
| AudioHelper.BlockAlign | utils/audioHelper.ts:40 | Specification of the block-align value: channels * bit depth / 8, truncated toward zero. It is exact for whole-byte depths by WholeByteRates. |
| AudioHelper.WavFieldsExact | utils/audioHelper.ts:17-49 | When every value fits its field, the file reads back with RIFF size = data size + 36, format 1, the given channels, rate and bit depth, block align = channels * bytes per sample, and byte rate = sample rate * block align. |
| AudioHelper.DefaultWav | utils/audioHelper.ts:17 | With the defaults (24000 Hz, mono, 16-bit), any payload under 4 GiB reads back with byte rate 48000, block align 2 and its own length as data size. |
| JsText.TrimStart | App.tsx:68 | Only a prefix is removed, every removed character is whitespace, and the result does not start with whitespace. |
| JsText.TrimEnd | App.tsx:68 | Only a suffix is removed, every removed character is whitespace, and the result does not end with whitespace. |
| JsText.Trim | App.tsx:68 | Specification of `String.prototype.trim`. TrimEmptyIffBlank proves it empties exactly the blank strings. |
| JsText.TrimStartEmptyIffBlank | App.tsx:68 | Stripping leading whitespace empties a string exactly when the string is all whitespace. |
| JsText.TrimEmptyIffBlank | App.tsx:68 | `!topic.trim()` holds exactly when the topic is empty or all whitespace. |
| JsText.ReplaceWhitespace | App.tsx:282 | The global whitespace replacement keeps the length. |
| JsText.ReplaceWhitespaceIdempotent | App.tsx:282 | Replacing with a non-whitespace character leaves no whitespace, a blank result only for the empty title, and replacing again changes nothing. |
| JsText.DecimalString | App.tsx:195 | The rendering of a number is a non-empty digit string with no leading zero. |
| JsText.DecimalRoundTrip | App.tsx:195 | Reading the digits of a rendered number gives the number back. |
| JsText.DecimalStringInjective | App.tsx:289 | Distinct numbers render to distinct strings. |
| AppView.IdleExactlyAtRest | App.tsx:41-47 | Nothing is in flight exactly in IDLE, SCRIPT_REVIEW, COMPLETED or ERROR, with neither a busy image index nor a busy video index. |
| AppView.IsProcessing | App.tsx:41-47 | Specification of `isProcessing`. IdleExactlyAtRest characterises when it is false. |
| AppView.StatusLabel | App.tsx:53-65 | Specification of `getStatusLabel`. BusyLabelsTrailOff and StatusLabelInjective state its properties. |
| AppView.BusyLabelsTrailOff | App.tsx:53-65 | A status label ends in "..." exactly for the statuses that count as in flight. |
| AppView.StatusLabelInjective | App.tsx:53-65 | No two statuses share a label. |
| AppView.EffectiveDuration | App.tsx:345 | The fallback duration (`duration` or else 1) is the media duration when that is positive, and exactly 1 s when the duration is NaN or 0. |
| AppView.ActiveSceneIndex | App.tsx:343-348 | The index is always a valid scene index when there are scenes, and 0 without an audio element, a script or scenes. |
| AppView.ActiveSceneIsEqualSlice | App.tsx:345-347 | Before the end of the narration, the index is the equal slice that holds the playback position. From the end on, it is the last scene. |
| AppView.ActiveSceneExample | App.tsx:343-348 | Four scenes over 8 s: 5.9 s is in scene index 2, 8 s is clamped to index 3, and an unknown duration counts as 1 s. |
| AppView.ActiveSubtitle | App.tsx:350-354 | The subtitle is the text of the active scene, the one whose equal slice holds the playback position (by ActiveSceneIsEqualSlice). It is "" without an audio element, a script or scenes. |
| Bundle.FolderName | App.tsx:282 | The folder name has the title's length and no whitespace. Each whitespace character of the title becomes '_' and every other character is kept. |
| Bundle.DownloadName | App.tsx:315 | The download name is the folder name followed by "_bundle.zip". |
| Bundle.ImageSlotsFilled | App.tsx:289 | An image slot is packaged exactly when its base64 text is non-empty. |
| Bundle.VideoSlotsFilled | App.tsx:293-295 | A video slot is packaged exactly when it holds a non-empty URL. |
| Bundle.SlotNumbers | App.tsx:288-300 | The listed 1-based numbers are strictly increasing, and each one names a filled slot. |
| Bundle.SlotNumbersComplete | App.tsx:288-289 | Every filled slot is listed. |
| Bundle.SlotNumbersMembership | App.tsx:288-300 | A number is listed exactly when its slot exists and is filled. |
| Bundle.SceneFiles | App.tsx:289 | The j-th file is `scene_<n>` plus the extension, where n is the j-th listed number. |
| Bundle.EntryNames | App.tsx:284-299 | The bundle starts with "script.json" and then "narration.wav". EntryNamesOnlyExpected, SceneEntryPresence and EntryNamesDistinct together make the rest exactly one file per filled slot. |
| Bundle.SceneFileInjective | App.tsx:289 | A scene file name determines both its scene number and its extension. |
| Bundle.SceneFileNotFixed | App.tsx:284-285 | No scene file is named "script.json" or "narration.wav". |
| Bundle.SceneFilesMembership | App.tsx:289 | A scene file is listed exactly when its number is listed with the same extension. |
| Bundle.EntryNamesDistinct | App.tsx:282-300 | The bundle's entry names are pairwise distinct, so no file overwrites another. |
| Bundle.SceneEntryPresence | App.tsx:282-300 | `scene_<k>.png` is in the bundle exactly when image slot k-1 is non-empty. `scene_<k>.mp4` is in it exactly when video slot k-1 holds a URL. |
| Bundle.EntryNamesOnlyExpected | App.tsx:284-299 | Every entry after the two fixed ones is `scene_<k>.png` for a non-empty image slot k-1 or `scene_<k>.mp4` for a filled video slot k-1, so the bundle holds nothing else. |
| Production.ErrorText | App.tsx:138 | A non-empty thrown message is shown as it is. An empty one is replaced by the fallback, so the text is never empty when the fallback is not. |
| Production.SceneError | App.tsx:195 | The message is "Scene ", the 1-based scene number in decimal, and then the suffix. |
| Production.BgmPromptsOrDefault | App.tsx:128-130 | A script always has a BGM prompt. Given prompts are kept, and a missing or empty list becomes exactly the one default prompt. |
| Production.NarrationAppend | App.tsx:148 | Appending a scene appends ". " and its text to the narration request. |
| Production.Narration | App.tsx:148 | Specification of the ". "-joined narration request. NarrationAppend and NarrationLength state its properties. |
| Production.NarrationLength | App.tsx:148 | The narration request holds every scene text plus one two-character separator between neighbours. |
| Production.SpeechError | App.tsx:161-173 | The speech call leaves an error exactly when no audio arrived, and that error is never empty. |
| Production.NarrationWav | App.tsx:164-166 | The narration file is 44 bytes longer than the decoded audio. Whenever it fits a RIFF size, it reads back as a 24000 Hz mono 16-bit PCM file (byte rate 48000, block align 2) whose payload is the decoded bytes. |
| Production.EmptyImageSlots | App.tsx:133 | A new script has one empty image slot per scene. |
| Production.EmptyVideoSlots | App.tsx:134 | A new script has one empty video slot per scene. |
| Production.ImageSlotAfter | App.tsx:259-265 | Specification of one image call on its slot: the inline data replaces the slot, otherwise the slot is kept. BatchImagesStep and BatchFailureKeepsPrefix use it. |
| Production.FirstImageFailure | App.tsx:251-274 | The loop stops at the first image call that throws, and every earlier call went through. |
| Production.BatchImages | App.tsx:251-267 | The image slots keep their number through a batch. |
| Production.BatchImagesStep | App.tsx:259-265 | Each image call writes only its own slot. |
| Production.BatchFailureKeepsPrefix | App.tsx:251-274 | After a batch that throws at scene k, the slots before k hold the inline data that arrived (or are unchanged without it), and the slots from k on are untouched. |
| Production.BatchImagesSlotwise | App.tsx:251-267 | A full batch is the same as the single-slot writes, whichever slot is written first. |
| Production.FirstFailureAt | App.tsx:251-274 | The first failing call is at i when every earlier call went through and call i failed (or i is the end). |
| Production.Project.constructor | App.tsx:28-38 | The page opens IDLE with no error, no script, no slots, no narration, no archive and nothing in flight. |
| Production.Project.GenerateScriptDraft | App.tsx:67-141 | A blank topic only sets "Please enter a topic.". Otherwise the URL and the archive are cleared. A parsed script gets the BGM default, one empty image slot and one empty video slot per scene, and SCRIPT_REVIEW. A thrown error gives ERROR with no script and no slots. The narration file is kept. |
| Production.Project.GenerateScriptDraftCorrected | App.tsx:67-141 | Corrected: the same as GenerateScriptDraft, except that a non-blank topic also discards the narration file, so no later archive pairs the new script with an old narration. |
| Production.Project.DraftScript | App.tsx:73-140 | The part after the topic check: clear the production, then apply the script outcome. The narration file is cleared only on request. |
| Production.Project.GenerateAudio | App.tsx:143-174 | Nothing happens without a script. Otherwise the request is the scene texts joined by ". ". Audio yields the 24 kHz mono WAVE file of the decoded bytes plus its URL, and SCRIPT_REVIEW. A missing audio part or a thrown error gives ERROR with its message and keeps the old file. |
| Production.Project.StoreNarration | App.tsx:164-168 | The stored file is the WAVE file of the decoded audio, stored together with its URL. |
| Production.Project.GenerateSingleImage | App.tsx:176-199 | Nothing happens without a script, without the scene or with an empty prompt. Otherwise only slot `index` may change (to the inline data), a throw sets "Scene n rendering failed.", the status is kept and the busy index ends cleared. |
| Production.Project.GenerateSingleVideo | App.tsx:201-242 | Nothing happens without a script or an image for the slot. Otherwise only video slot `index` may change (to the fetched clip's URL), a throw sets "Scene n video generation failed." and the busy index ends cleared. |
| Production.Project.RenderImagesInOrder | App.tsx:251-267 | The loop renders scenes in ascending order up to the first call that throws, writing each call's own slot. The busy index ends at the last scene attempted. |
| Production.Project.RenderBatch | App.tsx:246-274 | The image phase clears the error, and a throw ends it in ERROR with the thrown message or "Batch asset generation failed.". When every scene renders, the busy index is left on the last scene, or unchanged when there are no scenes. |
| Production.Project.GenerateAllAssets | App.tsx:244-275 | As written: a failed image call leaves ERROR with its scene still marked busy, and no narration is requested. Otherwise the busy index is cleared, the narration runs, and the status becomes COMPLETED even when the narration failed. |
| Production.Project.GenerateAllAssetsCorrected | App.tsx:244-275 | Corrected: nothing stays busy, COMPLETED is reached exactly when every image call went through and audio arrived, and every other outcome is ERROR with a message. |
| Production.Project.CreateZip | App.tsx:277-308 | As written: nothing happens without a script and a narration file. The archive holds the '_'-named folder, the entry names in order and the narration, and the status becomes COMPLETED. A failure sets "Zipping failed." and leaves ZIPPING. |
| Production.Project.CreateZipCorrected | App.tsx:277-308 | Corrected: a failure reports the error and restores the starting status, so packaging never leaves the page busy. |
| Production.Project.DownloadFileName | App.tsx:310-320 | There is a download exactly when there is an archive and a script, and its name is the folder name plus "_bundle.zip". |
| Production.Project.UpdateSceneText | App.tsx:322-327 | Only scene `index`'s narration line changes. |
| Production.Project.UpdateScenePrompt | App.tsx:329-334 | Only scene `index`'s image prompt changes. |
| Production.Project.UpdateBgmPrompt | App.tsx:492-496 | Only the first BGM prompt changes. |
| Production.DraftedProject | App.tsx:67-141 | A fresh page after drafting a one-scene script rests in SCRIPT_REVIEW with one empty image slot and one empty video slot. |
| Production.CompletedProject | App.tsx:244-275 | A batch whose image and audio both arrive ends COMPLETED with that audio's WAVE file and nothing busy. |
| Production.BatchFailureLocksControls | App.tsx:271-274 | As written, a throwing image call ends in ERROR while `isProcessing` still holds. |
| Production.BatchFailureCorrectedUnlocks | App.tsx:268-274 | Corrected, the same run ends in ERROR with nothing in flight. |
| Production.NarrationFailureReportsCompleted | App.tsx:269-270 | As written, a batch whose narration fails is reported COMPLETED, with the error message and no narration file. |
| Production.NarrationFailureCorrectedHalts | App.tsx:269-270 | Corrected, the same run ends in ERROR. |
| Production.ZipFailureLocksControls | App.tsx:305-307 | As written, a failed packaging leaves ZIPPING, which counts as in flight. |
| Production.ZipFailureCorrectedUnlocks | App.tsx:305-307 | Corrected, the same run returns to COMPLETED with the error and nothing in flight. |
| Production.RedraftPackagesStaleNarration | App.tsx:73-79 | As written, a second draft keeps the first narration file. After a failed narration the page reports COMPLETED, and the archive pairs the new script with the old narration. |
| Production.RedraftCorrectedDropsNarration | App.tsx:73-79 | Corrected, the second draft drops the narration file, so no stale archive can be built. |

## Left out

- The base64 decoding by `atob` is not modelled. `DecodeBase64ToUint8Array` takes the binary string `atob` returns, as UTF-16 code units.
- The remote services are inputs, not behaviour: the script, speech, image and video models, their prompts, and the API key. The style, aspect-ratio and scene-count settings only shape those prompts, so they are left out.
- Production.Project.GenerateSingleVideo: the polling loop that waits for the video job (5-second sleeps) is not modelled. The call's outcome is the finished job's result.
- Blobs, object URLs, `fetch`, the download link and `URL.revokeObjectURL` are not modelled. A WAVE blob is its byte sequence, and an object URL is an input string.
- Production.Project.CreateZip: the archive is modelled by its folder name, its entry names in order and its narration bytes. The JSON text of `script.json`, the image and video contents and JSZip's compression are left out. A failing video fetch inside it is a `ZipFailed` outcome.
- React's batched, asynchronous state updates are not modelled. Each entry point runs atomically, so two overlapping entry points (e.g. a video job still running while a draft starts) are not modelled.
- Production.Project.GenerateScriptDraft: a malformed JSON response is a thrown error (`ScriptFailed`). The case where a response without `scenes` is stored as the script just before the throw is not modelled.
- Production.Project.UpdateSceneText: the scene objects are values. The source mutates the shared scene object of the previous script in place, and that aliasing is not modelled. An index without a scene throws before any state changes, which the model renders as "nothing changes".
- AppView.ActiveSceneIndex: uses exact real arithmetic, not IEEE doubles. A negative or NaN playback position and a negative duration are excluded, as the media element never reports them.
- AudioHelper.ByteRate: the parameters are integers, and the product is exact. Above 2^53 the double product would round; that rounding and non-integral arguments are not modelled.
- The audio element's time-update listener, the play/pause and seek handlers, the JSX layout, `editingPromptIndex` and the unused `GeneratedAsset` interface are not modelled. They hold no pipeline logic.

## Findings

| source | as written | input that shows it | evidently intended | confidence | as-written member | corrected member |
|---|---|---|---|---|---|---|
| App.tsx:268-274 | The catch of `generateAllAssets` sets ERROR but never clears `imageGeneratingIndex`, so `isProcessing` stays true: the draft, batch and per-image buttons stay disabled, so the page cannot be restarted without a reload. | A one-scene script whose image call throws ("quota exceeded") | The busy image index is cleared however the loop ends | not executed | Production.BatchFailureLocksControls | Production.BatchFailureCorrectedUnlocks |
| App.tsx:269-270 | `generateAudio` catches its own error, so `generateAllAssets` then sets COMPLETED after a failed narration | A one-scene script whose image arrives and whose speech call throws | A failed narration ends the batch in ERROR | not executed | Production.NarrationFailureReportsCompleted | Production.NarrationFailureCorrectedHalts |
| App.tsx:305-307 | The catch of `createZip` sets the error but leaves ZIPPING, which `isProcessing` counts as in flight, and the package button is shown only in COMPLETED | A completed production whose archive generation throws | The status returns to what it was before packaging | not executed | Production.ZipFailureLocksControls | Production.ZipFailureCorrectedUnlocks |
| App.tsx:73-79 | A new draft clears `audioUrl` but not `audioBlob`, so `createZip` can package the previous script's narration with the new script | Complete a production, draft a new topic, run a batch whose narration fails, package | A new draft discards the narration file too | not executed | Production.RedraftPackagesStaleNarration | Production.RedraftCorrectedDropsNarration |
