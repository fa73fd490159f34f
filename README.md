# Picture-book and video-sticker mini-program: verified model of its core logic

This project models in Dafny the logic inside a WeChat mini-program for children's picture
books and short video stickers, and proves properties of it. The program lets a user:

- remove a colour from a sequence of video frames (chroma key) and play the frames back;
- crop and compress images, and compose a sticker from a photo and a frame;
- read picture books page by page, by hand or with auto-play;
- build a custom book from a template's photo slots;
- put text captions on a video, crop it, or remove a background colour, each within a
  trimmed playback window;
- romanise Chinese characters to pinyin to check a spoken answer.

Every page is a class whose fields are the page's `data`. Each `setData` becomes a field
assignment. Each event handler becomes a method, and each firing of a timer becomes an
explicit tick method. The pure helpers become functions with lemmas.

Results from the host runtime are parameters of the methods that consume them. These
include `wx.getImageInfo`, canvas exports, selector queries, the photo picker and the album
calls. An `Option` holds a success (`Some`) or a failure (`None`). `Date.now()`,
`Math.random()`, `Math.sqrt` and `Math.atan2` also arrive as parameter values. Times and
geometry are `real`; pixel bytes are integers in 0..255.

Modules, one per source file, plus shared modules:

| module | models |
|---|---|
| `Wrappers` | `Option`, `Result` and the host failure value |
| `ChromaKey` | the per-pixel chroma-key pass over an RGBA canvas buffer (video-edit page) |
| `VideoEdit` | the frame-sequence editor page: playback, batch keying, eyedropper |
| `ImageUtils` | `cropAndResize`, `compressImage`, `processAndCompressImage`, `removeBackground` |
| `ImageEdit` | the sticker page: square crop, frame layering, generate/save guards |
| `Pinyin` | `textToPinyin` |
| `BookReader` | the book catalogue, page turning and auto-play |
| `CustomBook` | the template/photo-slot wizard and book generation |
| `TouchGestures` | clamping and the pinch scale shared by the video pages |
| `TrimTimeline` | the trim window and loop playback, one class for the three video pages |
| `VideoText`, `VideoCrop`, `VideoRemoveBg` | the three video pages' own handlers |

The trim and playback handlers are the same code, line for line, in
`pages/video-text/video-text.js`, `pages/video-crop/video-crop.js` and
`pages/video-removebg/video-removebg.js`. They are modelled once, as
`TrimTimeline.Timeline`, and each page class holds one. The table cites the video-crop
copy.

## Model

| member | source | states |
|---|---|---|
| ChromaKey.SquaredDistance | pages/video-edit/video-edit.js:617-624 | the squared RGB distance lies in [0, 3·255²] and is 0 exactly when the pixel equals the target colour |
| ChromaKey.ClearsMatchesDistanceTest | pages/video-edit/video-edit.js:617-631 | the integer test `10000·d ≤ (441·t)²` (with t ≥ 0) agrees with the page's `sqrt(d) <= (t / 100) * 441` for every pixel and threshold |
| ChromaKey.RemoveColor | pages/video-edit/video-edit.js:615-634 | the in-place loop over the buffer, four bytes per pixel, leaves the buffer equal to the specification `Keyed` of its old contents |
| ChromaKey.KeyedAppend | pages/video-edit/video-edit.js:615-634 | pixels are keyed independently: keying distributes over a concatenation at a pixel boundary |
| ChromaKey.KeyedAt | pages/video-edit/video-edit.js:615-634 | the pass keeps the length, and each output byte is the input byte, except a matching pixel's alpha byte, which becomes 0 |
| ChromaKey.KeyedOnlyWritesAlpha | pages/video-edit/video-edit.js:615-634 | the pass keeps the buffer length and never changes an R, G or B byte |
| ChromaKey.KeyedAlpha | pages/video-edit/video-edit.js:621-633 | a pixel's alpha becomes 0 if and only if its colour is within the threshold; otherwise its alpha is kept |
| ChromaKey.KeyedIdempotent | pages/video-edit/video-edit.js:615-634 | running the pass twice with the same colour and threshold gives the same buffer as running it once |
| ChromaKey.ClearsMonotone | pages/video-edit/video-edit.js:628-631 | a colour within a threshold is within every larger threshold |
| ChromaKey.ClearedPixelsMonotone | pages/video-edit/video-edit.js:628-631 | every pixel cleared at one threshold is cleared at any larger threshold |
| ChromaKey.ThresholdZeroExactMatch | pages/video-edit/video-edit.js:628-631 | at threshold 0 only the exact target colour is cleared |
| ChromaKey.ThresholdFullKeepsFarCorner | pages/video-edit/video-edit.js:628-631 | at threshold 100 the limit is 441², so black on a white target (squared distance 195075) is kept |
| VideoEdit.At | pages/video-edit/video-edit.js:215 | an array read yields the element in range and the empty value outside it |
| VideoEdit.OrElse | pages/video-edit/video-edit.js:215 | `a \|\| b` on paths is `a` unless `a` is empty, otherwise `b` |
| VideoEdit.ProcessFrames | pages/video-edit/video-edit.js:553-566 | the batch loop gives one output per input, in order: the exported frame, or the source frame when processing it rejects |
| VideoEdit.AllRejectedKeepsSources | pages/video-edit/video-edit.js:441-449 | when every frame fails, the batch returns the source frames unchanged |
| VideoEdit.NextFrameIndex | pages/video-edit/video-edit.js:213 | the tick's index `(i + 1) % n` stays in [0, n), is i + 1 before the last frame and 0 after it |
| VideoEdit.AdvanceWithoutWrap | pages/video-edit/video-edit.js:212-217 | before the end, k ticks advance exactly k frames |
| VideoEdit.AdvanceCompose | pages/video-edit/video-edit.js:212-217 | a + b ticks are a ticks followed by b ticks |
| VideoEdit.PlaybackCycles | pages/video-edit/video-edit.js:212-217 | after n ticks on n frames the same frame is shown again |
| VideoEdit.SampleCoordinate | pages/video-edit/video-edit.js:375-376 | the eyedropper's pixel coordinate is the floor of the position, clamped to [0, 239] |
| VideoEdit.VideoEditPage.TestMode | pages/video-edit/video-edit.js:79-106 | the test-mode load with a video path: the video is the original and the only frame, nothing is processed, playback is off and the colour and threshold keep their defaults (pure green, 30) |
| VideoEdit.VideoEditPage.OnOriginalVideoPlay | pages/video-edit/video-edit.js:148-154 | the frame sequence starts with the original video unless it already plays |
| VideoEdit.VideoEditPage.OnVideoPlay | pages/video-edit/video-edit.js:157-160 | the page records that the video plays |
| VideoEdit.VideoEditPage.TogglePlay | pages/video-edit/video-edit.js:172-201 | with an original video, or outside test mode, it stops a playing sequence and starts a stopped one; in test mode without an original video only the flag flips |
| VideoEdit.VideoEditPage.StartPlay | pages/video-edit/video-edit.js:204-208 | with no frames nothing changes; otherwise playing, with the timer registered |
| VideoEdit.VideoEditPage.PlayTick | pages/video-edit/video-edit.js:212-217 | the index advances cyclically, stays in range, and the shown frame is the processed frame, or the original when that is empty |
| VideoEdit.VideoEditPage.StopPlay | pages/video-edit/video-edit.js:222-228 | the timer is cleared and playback stops |
| VideoEdit.VideoEditPage.OnColorSampled | pages/video-edit/video-edit.js:379-389 | a read of at least 4 bytes makes its first pixel's RGB the selected colour; a shorter read leaves the colour as it was |
| VideoEdit.VideoEditPage.OnThresholdChange | pages/video-edit/video-edit.js:409-417 | the threshold is stored; re-keying starts only after a first pass, with original frames present, and when no job runs |
| VideoEdit.VideoEditPage.ReprocessWithNewThreshold | pages/video-edit/video-edit.js:420-433 | ignored while a job runs; otherwise the page becomes busy and a job over the original frames with the new threshold starts |
| VideoEdit.VideoEditPage.CompleteReprocess | pages/video-edit/video-edit.js:434-465 | the processed frames become the batch result with fallback, the current frame is refreshed (`[index] \|\| [0]`), and the busy flag clears |
| VideoEdit.VideoEditPage.ProcessChromaKey | pages/video-edit/video-edit.js:500-576 | test mode rejects (cloud function needed); no frames rejects; otherwise every frame is keyed with fallback, the page is marked processed and the current frame refreshed |
| ImageUtils.CropAndResize | utils/imageUtils.js:8-43 | it fails exactly when the image info fails; otherwise it returns the original path, with crop data echoing the source and target sizes |
| ImageUtils.CropRectProperties | utils/imageUtils.js:15-30 | the crop rectangle is non-empty, lies inside the source, is centred, keeps one side whole, and has exactly the target aspect ratio |
| ImageUtils.RatioGreater | utils/imageUtils.js:22 | the comparison of the two aspect ratios equals the cross-multiplied comparison |
| ImageUtils.CompressImageOutcome | utils/imageUtils.js:60-103 | the result is the original path exactly when the file is within the limit, otherwise the recompressed file once both calls succeed, and a rejection when a reached call fails |
| ImageUtils.CompressedSizeIgnored | utils/imageUtils.js:85-92 | the recompressed size never changes the result: an over-limit file is returned like a within-limit one |
| ImageUtils.SmallFileUntouched | utils/imageUtils.js:66-71 | a file within the limit is returned unchanged, whatever the later calls would report |
| ImageUtils.ProcessAndCompressImage | utils/imageUtils.js:48-54 | an unreadable image rejects before any compression |
| ImageUtils.ProcessIsCompressOfOriginal | utils/imageUtils.js:35-54 | once the image info is read, processing equals compressing the original file; the target size has no effect |
| ImageUtils.RemoveBackground | utils/imageUtils.js:110-134 | whether the notice succeeds or fails, the result is the unchanged input path |
| ImageEdit.CropToSquareProperties | pages/image-edit/image-edit.js:82-84 | the square's side is min(w, h); it is non-empty, lies inside the image with equal margins, and one margin is 0 |
| ImageEdit.FrameLayers | pages/image-edit/image-edit.js:180-188 | the photo is always drawn first; the frame is drawn on top exactly when its path is non-empty and not the placeholder |
| ImageEdit.ImageEditPage.ChooseImage | pages/image-edit/image-edit.js:50-53 | the picked file becomes the user image |
| ImageEdit.ImageEditPage.CompleteCrop | pages/image-edit/image-edit.js:56-59 | a successful crop stores the exported square and runs the preview; a failed one changes nothing |
| ImageEdit.ImageEditPage.GeneratePreview | pages/image-edit/image-edit.js:120-132 | nothing is composed unless both the cropped photo and the frame path are set |
| ImageEdit.ImageEditPage.GenerateImage | pages/image-edit/image-edit.js:135-149 | refused without a cropped photo (and `generating` unchanged); otherwise composition starts and the page is busy |
| ImageEdit.ImageEditPage.CompleteGenerateImage | pages/image-edit/image-edit.js:149-170 | success records the result, and in every case the page is no longer busy |
| ImageEdit.ImageEditPage.SaveImage | pages/image-edit/image-edit.js:215-252 | without a result nothing is saved; an album error whose message mentions "auth deny" asks for authorisation, any other error fails |
| Pinyin.LookupFindsEntry | utils/speechRecognition.js:100-112 | a table lookup succeeds exactly when some entry has that key, and returns that entry's syllable |
| Pinyin.EntriesShape | utils/speechRecognition.js:100-109 | every table entry maps a CJK ideograph to a non-empty run of lower-case letters |
| Pinyin.TableShape | utils/speechRecognition.js:100-109 | only ideographs have a romanisation, each one is a syllable, and no lower-case letter is a key |
| Pinyin.Romanize | utils/speechRecognition.js:112 | a table character becomes its syllable and any other character is kept; the result is never empty |
| Pinyin.TextToPinyin | utils/speechRecognition.js:98-113 | the empty text maps to the empty text, and the output is never shorter than the input |
| Pinyin.TextToPinyinAppend | utils/speechRecognition.js:112 | the conversion distributes over concatenation |
| Pinyin.TextToPinyinPassThrough | utils/speechRecognition.js:112 | a text without table characters is returned unchanged |
| Pinyin.TextToPinyinSyllables | utils/speechRecognition.js:100-112 | a text made only of table characters becomes the concatenation of their syllables |
| Pinyin.NoTableKeysInOutput | utils/speechRecognition.js:100-112 | no character of a result is a table character |
| Pinyin.TextToPinyinIdempotent | utils/speechRecognition.js:98-113 | converting a converted text changes nothing |
| BookReader.CatalogueContents | pages/book-reader/book-reader.js:44-73 | exactly two books exist, id 1 in "public" (6 pages) and id 1 in "original" (5 pages); every other pair, including section "custom", finds nothing |
| BookReader.PrevPage | pages/book-reader/book-reader.js:97-103 | one page back only when not on the first page |
| BookReader.NextPage | pages/book-reader/book-reader.js:106-112 | one page forward only when not on the last page |
| BookReader.PageTurnsInverse | pages/book-reader/book-reader.js:97-112 | both buttons keep an in-range page in range, and each undoes the other away from the ends |
| BookReader.RunAutoPlayAdvances | pages/book-reader/book-reader.js:127-132 | before the last page, every tick turns exactly one page and the timer keeps running |
| BookReader.AutoPlayReachesLastPage | pages/book-reader/book-reader.js:127-143 | auto-play from any page reaches the last page, and the next tick stops it there |
| BookReader.BookReaderPage.LoadBookContent | pages/book-reader/book-reader.js:74-87 | a catalogued book sets the pages and `totalPages = pages.length`; a missing one leaves both unchanged and the page leaves |
| BookReader.BookReaderPage.OnPageChange | pages/book-reader/book-reader.js:91-94 | the swiper's page becomes the current page |
| BookReader.BookReaderPage.PrevPageButton | pages/book-reader/book-reader.js:97-103 | the page becomes `PrevPage` of the old one and stays in range |
| BookReader.BookReaderPage.NextPageButton | pages/book-reader/book-reader.js:106-112 | the page becomes `NextPage` of the old one and stays in range |
| BookReader.BookReaderPage.ToggleAutoPlay | pages/book-reader/book-reader.js:115-150 | auto-play flips, and the timer is registered exactly while auto-play runs |
| BookReader.BookReaderPage.OnAutoPlayTick | pages/book-reader/book-reader.js:127-143 | a tick turns one page, or on the last page stops auto-play and clears the timer |
| CustomBook.SlotCount | pages/custom-book/custom-book.js:53 | a template opens `photoCount` slots, or 5 when the count is 0; always at least one |
| CustomBook.TemplateSlots | pages/custom-book/custom-book.js:24-45 | the three templates need 5, 8 and 6 photos |
| CustomBook.Digit | pages/custom-book/custom-book.js:124 | the character for a decimal digit denotes that digit |
| CustomBook.DecimalDigits | pages/custom-book/custom-book.js:124 | a number prints as a non-empty run of decimal digits |
| CustomBook.DecimalRoundTrip | pages/custom-book/custom-book.js:124 | reading the printed digits back gives the number |
| CustomBook.DecimalDigitsInjective | pages/custom-book/custom-book.js:124 | different numbers print differently |
| CustomBook.PageLabelsDistinct | pages/custom-book/custom-book.js:122-125 | different pages get different captions `第{i + 1}页` |
| CustomBook.Assemble | pages/custom-book/custom-book.js:118-126 | the book has one page per slot, in order, each page with its photo and caption; the cover is the first photo; id and title are as given |
| CustomBook.FilledBookHasEveryPhoto | pages/custom-book/custom-book.js:85-126 | a book built from filled slots has a photo on its cover and on every page |
| CustomBook.GenerationTakesTenTicks | pages/custom-book/custom-book.js:105-114 | iterating the page's generation tick from the state `NextStep` starts it in keeps the interval running through nine ticks showing 10, 20, ..., 90, and the tenth tick reaches exactly 100 with the interval cleared for good |
| CustomBook.PreviewedBookNotInCatalogue | pages/custom-book/custom-book.js:139-142 | the reader route of a generated book (section "custom") is never found in the reader's catalogue |
| CustomBook.CustomBookPage.SelectTemplate | pages/custom-book/custom-book.js:49-56 | the template is selected, a fresh set of `SlotCount` empty slots is created, and the wizard moves to step 2 |
| CustomBook.CustomBookPage.ChoosePhoto | pages/custom-book/custom-book.js:65-69 | the chosen file fills slot `index` in place, and every other slot is unchanged |
| CustomBook.CustomBookPage.AllPhotosUploaded | pages/custom-book/custom-book.js:85 | the loop answers true exactly when every slot holds a photo |
| CustomBook.CustomBookPage.NextStep | pages/custom-book/custom-book.js:82-98 | the wizard moves from step 2 to step 3 and generation starts (progress 0, interval running) exactly when every slot is filled; otherwise nothing changes |
| CustomBook.CustomBookPage.GenerationTick | pages/custom-book/custom-book.js:109-130 | the timer state moves by the generation step: progress grows by 10, and at 100 the timer stops and the result is the book assembled from the template name and the slots |
| CustomBook.CustomBookPage.PreviewBook | pages/custom-book/custom-book.js:134-143 | nothing happens without a result book; otherwise the reader route for it is opened |
| TouchGestures.Clamp | pages/video-crop/video-crop.js:110 | the clamped value lies in [lo, hi], equals the input inside, and equals the bound it crossed outside |
| TouchGestures.ClampMonotone | pages/video-crop/video-crop.js:110 | clamping never turns a larger input into a smaller result |
| TouchGestures.PinchScaleProperties | pages/video-crop/video-crop.js:108-111 | a pinch scale is always in [0.5, 3], and fingers back at their starting spread give back an in-range start scale |
| TouchGestures.PinchScaleMonotone | pages/video-crop/video-crop.js:108-111 | spreading the fingers further never shrinks the scale |
| TrimTimeline.TrimEndFor | pages/video-crop/video-crop.js:303-305 | the end is capped by the duration, and an end of 0 means the whole video |
| TrimTimeline.TimelineTimeProperties | pages/video-crop/video-crop.js:206-207 | a timeline touch maps to a time within [0, duration], proportional to the position along the track, with the track ends giving 0 and the duration |
| TrimTimeline.DragTimeAtRest | pages/video-crop/video-crop.js:260-262 | a handle drag that has not moved leaves an in-range handle time unchanged |
| TrimTimeline.PlaybackPosition | pages/video-crop/video-crop.js:165-181 | a time at or past the end wraps to the start, a time before the start snaps to it, and any other time is kept |
| TrimTimeline.PlaybackStaysInWindow | pages/video-crop/video-crop.js:165-181 | whatever the player reports, the playhead ends inside a non-empty window |
| TrimTimeline.PlaybackPositionIdempotent | pages/video-crop/video-crop.js:165-181 | a second update at the settled position changes nothing |
| TrimTimeline.Timeline.constructor | pages/video-crop/video-crop.js:25-57 | the window from the route is stored, a 10-second video is assumed, and the end is capped at 10 (an end of 0 means 10) |
| TrimTimeline.Timeline.TogglePlay | pages/video-crop/video-crop.js:142-158 | starting playback from outside [trimStart, trimEnd) first seeks to trimStart, so play starts inside the window; the command is `play()` exactly when the video was paused, and a playing video is paused (`pause()`) with nothing in the page changed |
| TrimTimeline.Timeline.OnVideoTimeUpdate | pages/video-crop/video-crop.js:160-182 | the playhead becomes `PlaybackPosition`; reaching the end issues `pause()`, which happens exactly there, and seeks back to trimStart; a time before the start seeks to trimStart |
| TrimTimeline.Timeline.OnVideoPlay | pages/video-crop/video-crop.js:184-187 | the page records that the video plays |
| TrimTimeline.Timeline.OnVideoPause | pages/video-crop/video-crop.js:189-192 | the page records that the video is paused |
| TrimTimeline.Timeline.OnVideoEnded | pages/video-crop/video-crop.js:194-199 | the video stops and rewinds to trimStart |
| TrimTimeline.Timeline.OnTimelineTouchStart | pages/video-crop/video-crop.js:201-214 | the playhead seeks to the touched time, which lies within [0, duration] |
| TrimTimeline.Timeline.OnTimelineTouchMove | pages/video-crop/video-crop.js:216-228 | while a handle is dragged nothing changes; otherwise the playhead follows the finger within [0, duration] |
| TrimTimeline.Timeline.OnTimelineTouchEnd | pages/video-crop/video-crop.js:230-235 | the player seeks to the chosen time unless a handle was dragged |
| TrimTimeline.Timeline.OnHandleTouchStart | pages/video-crop/video-crop.js:238-251 | the dragged handle ("start" or "end"), the finger position and the handle's time are recorded |
| TrimTimeline.Timeline.OnHandleTouchMove | pages/video-crop/video-crop.js:253-281 | the dragged handle follows the finger, clamped to [0, duration], and moves only while the window stays longer than 0.5 s; a well-formed window stays well-formed |
| TrimTimeline.Timeline.OnHandleTouchEnd | pages/video-crop/video-crop.js:283-288 | no handle is dragged afterwards |
| TrimTimeline.Timeline.OnVideoLoadedMetadata | pages/video-crop/video-crop.js:300-308 | a non-positive duration is ignored; otherwise it replaces the assumed one and the end becomes `min(duration, trimEnd \|\| duration)` |
| VideoText.CopyOf | pages/video-text/video-text.js:270-275 | a copy is the original with a new id, moved 20 right and 20 down, and otherwise identical |
| VideoText.CopySourceIndex | pages/video-text/video-text.js:267 | the tapped index is copied, except that an absent index and index 0 both fall back to the selected caption |
| VideoText.FirstCaptionCopyFallsBack | pages/video-text/video-text.js:267 | tapping copy on the first caption copies the selected caption instead |
| VideoText.DraggedToAtRest | pages/video-text/video-text.js:229-233 | a finger that has not moved leaves the caption where it started |
| VideoText.DraggedToFollowsFinger | pages/video-text/video-text.js:229-233 | on a preview of any width the caption's displacement is the finger's scaled by 750 / width, it moves in the finger's direction, and at width 750 it moves exactly as far |
| VideoText.BlankIffTrimEmpty | pages/video-text/video-text.js:102 | for every text, the blank test the model uses holds exactly when `trim` (leading then trailing white space and line terminators removed) leaves nothing, and a text holding a letter or digit is never refused |
| VideoText.VideoTextPage.OnTextInput | pages/video-text/video-text.js:86-90 | the input becomes the editing text |
| VideoText.VideoTextPage.SelectFont | pages/video-text/video-text.js:93-98 | the chosen font becomes the selected font |
| VideoText.VideoTextPage.CancelAddText | pages/video-text/video-text.js:153-157 | the editing text is cleared |
| VideoText.VideoTextPage.ConfirmAddText | pages/video-text/video-text.js:101-150 | blank input changes nothing; editing changes only the selected caption's content and font, then resets the editor; adding appends exactly one default-styled caption at the preview centre and selects it |
| VideoText.VideoTextPage.CopyText | pages/video-text/video-text.js:266-286 | a negative index changes nothing; otherwise exactly one shifted copy is appended and selected |
| VideoText.VideoTextPage.OnTextTouchStart | pages/video-text/video-text.js:160-195 | two fingers record spread, angle, scale (`scale \|\| 1`) and rotation; one finger records the finger and caption positions; the caption is selected |
| VideoText.VideoTextPage.OnTextTouchMove | pages/video-text/video-text.js:198-242 | only the selected caption changes: two fingers set its pinch scale (in [0.5, 3]) and its rotation, one finger moves it by the finger's offset scaled to the layout |
| VideoText.VideoTextPage.OnTextTouchEnd | pages/video-text/video-text.js:245-250 | the editor is scheduled exactly for a one-finger release on a selected caption outside the editor |
| VideoText.VideoTextPage.OpenEditor | pages/video-text/video-text.js:251-260 | if the caption still exists its text and font are loaded and the editor opens; otherwise nothing changes |
| VideoCrop.PanTelescopes | pages/video-crop/video-crop.js:114-121 | because each move re-bases on the finger, a whole one-finger gesture pans by half the distance from its first to its last finger position |
| VideoCrop.VideoCropPage.OnCropTouchStart | pages/video-crop/video-crop.js:75-96 | two fingers record the spread and the current scale; one finger records its position; anything else is ignored |
| VideoCrop.VideoCropPage.OnCropTouchMove | pages/video-crop/video-crop.js:98-123 | two fingers set the clamped pinch scale; one finger pans by half its motion and re-bases; the scale always stays in [0.5, 3] |
| VideoRemoveBg.PaletteShape | pages/video-removebg/video-removebg.js:114 | the default colour is the palette's first, and every palette entry is a `#rrggbb` string |
| VideoRemoveBg.VideoRemoveBgPage.ToggleColorPicking | pages/video-removebg/video-removebg.js:72-83 | picking mode flips, and the hint shows when it turns on |
| VideoRemoveBg.VideoRemoveBgPage.OnCanvasTouchStart | pages/video-removebg/video-removebg.js:86-89 | ignored unless picking; otherwise handled as a move: nothing changes without the preview, and with it the drawn palette colour is picked and the video counts as processed |
| VideoRemoveBg.VideoRemoveBgPage.OnCanvasTouchMove | pages/video-removebg/video-removebg.js:92-124 | ignored unless picking; once the preview is found, a palette colour is selected and the video counts as processed |
| VideoRemoveBg.VideoRemoveBgPage.OnColorRangeChange | pages/video-removebg/video-removebg.js:148-152 | the slider value becomes the colour range |
| VideoRemoveBg.VideoRemoveBgPage.ConfirmRemoveBg | pages/video-removebg/video-removebg.js:155-171 | the removal is saved exactly when a colour has been picked |

## Left out

- Host calls (canvas drawing, pixel reads and writes, exports, selector queries, toasts, modals, navigation, the album, `getFileInfo`, `compressImage`, `chooseMedia`) are foreign code: only the values passed to and from them are modelled.
- Timers and promises are not scheduled: each async step is a begin method and a completion method, and each timer firing is a tick method. Callbacks that would interleave differently in the host are not explored.
- Floating point: times, sizes and positions are exact `real`s; NaN, Infinity and rounding are not modelled, and `Math.sqrt` and `Math.atan2` results arrive as values.
- `onLoad` of the video-edit page reads an undeclared `originalVideoPath` in its processed-frames branch (pages/video-edit/video-edit.js:69) and its frame-list branch (:138), so both throw before setting anything; only the test-mode branch (:79-106) loads, and `TestMode` models it. The unnamed constructor builds the state those two branches would set, which the program as written never reaches; the empty-path toast and the parsing of the route options are not modelled.
- The `getVideoInfo` success callback in the three video pages is not an arrow function, so its `this.setData` cannot reach the page; only the synchronous 10-second default (`TrimTimeline.Timeline.constructor`) is modelled.
- After the eyedropper updates the colour, the video-edit page calls `debouncedProcessChromaKey`, which is defined nowhere; only the colour update before that call is modelled (`OnColorSampled`).
- `originalFrames || frameUrls` in `reprocessWithNewThreshold` never falls back, because an array is always truthy: the model uses `originalFrames`.
- `processVideoFrame` (video-edit test mode) only rejects, after its notice dialog; the model returns `NeedsCloudFunction`, so the test-mode success branch is not modelled.
- The aspect-fit mapping from a touch to the frame (video-edit `updateColorPicker`/`getColorFromImage` up to the clamp) and `toggleColorPicker`, `initColorPickerCanvas`, `onVideoError`, `onUnload`: host geometry, canvas set-up and timer clean-up.
- The image-edit page never assigns `framePath` (only `framePreview` is set), so `GeneratePreview` always declines and composition never draws a frame; the model keeps this as written.
- The generated custom book opens the reader with section "custom", which the reader's catalogue cannot load (`PreviewedBookNotInCatalogue`); `saveBook` only shows a toast.
- `confirmCrop` and `cancelCrop` (video-crop), `applyChromaKey` and `cancelRemoveBg` (video-removebg) only navigate or show messages.
- `onExportGIF` (video-edit) hands the frames to a cloud function and saves its download to the album: cloud and host plumbing.
- The random colour pick in video-removebg arrives as the palette index `choice`, and `Date.now()` ids arrive as the parameter `now`.
- Parsing of route options (`parseFloat`, `decodeURIComponent`) is not modelled; the constructors take the parsed values.
- `split('')` in `textToPinyin` splits into UTF-16 code units, while Dafny characters are code points; a character outside the BMP is split into two surrogates that are not table keys and are joined back, so the result is the same.
- ChromaKey.RemoveColor: requires a buffer length that is a multiple of 4, which every canvas pixel buffer has.
- CustomBook.CustomBookPage.ChoosePhoto: requires `index` to be one of the slots, as the rendered slots supply; a larger index would grow the JavaScript array.
- VideoText.VideoTextPage.CopyText: requires a tapped index inside the caption list, as the rendered list supplies; an index past the end would copy an empty object.
- VideoText.VideoTextPage.OnTextTouchStart: requires the touched caption's index to be inside the list, as the rendered list supplies.
- VideoText.VideoTextPage.OnTextTouchMove: requires a positive start distance for a two-finger move; the source divides by it, and a zero would give Infinity or NaN.
- VideoCrop.VideoCropPage.OnCropTouchMove: requires a positive start distance for a two-finger move, for the same reason.
- VideoEdit.VideoEditPage.PlayTick: requires at least one frame; the timer is only started when frames exist.
- BookReader.BookReaderPage.LoadBookContent: requires the first page to be shown, as it runs once from `onLoad`.
- ImageUtils.CropAndResize: source and target sizes are positive (`Dimension`); a zero target height would divide by zero in the source.
