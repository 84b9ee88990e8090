# Reel editor: a verified model of the media composition core

The reel editor turns an ordered list of still images into a video. Each
image is filtered, fitted to the video frame, optionally captioned and
shown for its duration; the clips are concatenated, and an optional
background track is trimmed, looped, scaled in volume and cut to the video.
This project models, in Dafny, the logic that `utils.py` and
`video_processor.py` wrap around the Pillow and moviepy calls, and proves
what that logic promises.

- `outcomes.dfy` (`Outcomes`): `Option`, `Result` and the Python exceptions the
  core raises (`ValueError`, `ZeroDivisionError`, `AttributeError`, and
  `OSError` for an image file that cannot be opened).
- `images.dfy` (`Images`): an image is its size, its mode (L, RGB, RGBA) and a
  pixel function. The library calls the core makes are fields of a `Backend`
  value. Nothing is assumed about the pixels they compute. The model fixes
  the size of every result.
- `hex_color.dfy` (`HexColor`): `hex_to_rgb`. This includes what Python's
  `int(s, 16)` accepts: surrounding white space (space and '\t' to '\r'
  among ASCII characters, the Unicode spaces above ASCII), a sign, a `0x`
  prefix, underscores between digits, and a one-character last slice.
- `filters.dfy` (`Filters`): `apply_image_filters`.
  - `Plan` is the sequence of steps the filter dict switches on, in the
    function's fixed order.
  - `Run` folds those steps over the image.
  - `ApplyImageFilters` is the source's straight-line chain of conditionals,
    written as five section methods. It is proved to compute
    `Run(Plan(filters))`.
  - The sepia matrix (in exact thousandths, clamped and floored) and the
    alpha-preserving RGBA invert are modelled pixel by pixel.
- `filter_facts.dfy` (`FilterFacts`): which steps run, under which condition
  and with which parameter. It also covers their order, when the chain
  raises, what happens to size and mode, and the sepia and invert arithmetic.
- `fit.dfy` (`Fit`): `resize_image_for_video`.
  - The aspect comparison is an exact cross-multiplication.
  - `int(h * aspect)` is the exact floor of a rational.
  - It computes the cover crop box, the contain paste offset, and their
    geometry.
- `text_layer.dfy` (`TextLayer`): `create_text_image`. It computes the font
  fallback, the text origin for each alignment, and the layer's size.
- `clips.dfy` (`Clips`): `create_clip_from_data`. It fills in the defaults and
  runs the pipeline in the order convert to RGB, filter, fit, overlay. The
  overlay is composited only when there is text.
- `render.dfy` and `render_facts.dfy` (`Render`, `RenderFacts`):
  `render_video`.
  - `RenderVideo` is a method. It has the empty guard, the clip loop with
    its progress reports, concatenation, the audio steps and the encoder
    call.
  - It is proved against `Build`, `Progress`, `TotalDuration` and
    `Soundtrack`.
  - Lemmas cover the progress values, the timeline length and the audio
    law.

Behaviour of the code worth noting, which the model keeps:

- A zero or negative duration is not rejected.
- The progress callback is never called with 1.0 at the end.
- Rotation takes any angle, not only right angles.
- A `fit_method` other than the three names returns the image unchanged,
  not the frame size.
- `hex_to_rgb` accepts signed and one-digit pairs, so a component can be as
  low as -15.
- With looping off, a short track stays short and the video keeps its
  length.

Where the model departs from the code, in favour of what the code evidently
means (both halves are modelled; see Findings):

- The cover crop box is passed to Pillow as half-pixel coordinates, which
  Pillow rounds half to even, so for an odd frame width and an odd margin
  the frame is one pixel narrower or wider than asked (see Findings). Here
  the model does NOT follow the code: `Fit.ResizeForVideo` crops with the
  floored box `Fit.CenterBox`, which is always the frame's size; the box as
  written is `Fit.PillowCropBox`, and `Fit.CropAsWritten` is the crop it
  gives.
- The audio loop is asked of moviepy's video effects (`vfx.audio_loop`),
  where moviepy 1.x has no such function, so as written a track that needs
  looping raises AttributeError (see Findings). The model of `render_video`
  loops the track as intended: with looping on the track lasts exactly as
  long as the video.

## Model

| member | source | states |
|---|---|---|
| HexColor.HexToRgb | utils.py:4-7 | strip the leading '#'s and read the slices [0:2], [2:4], [4:6] with `int(_, 16)`; the first failure raises ValueError |
| HexColor.ParseInt16 | utils.py:7 | `int(s, 16)`: white space around, an optional sign and `0x`, hex digits with single underscores; anything else fails |
| HexColor.LStripHash | utils.py:6 | the result has no leading '#' and is no longer than the input |
| HexColor.StripsEveryHash | utils.py:6 | a leading '#' more or less does not change the colour |
| HexColor.TwoDigits | utils.py:7 | `int(s, 16)` of two hexadecimal digits is their base-16 value |
| HexColor.OneDigit | utils.py:7 | a one-character slice is read as a single base-16 digit |
| HexColor.PairAt | utils.py:7 | the slice at offset i of two hex digits is read as their base-16 value |
| HexColor.SixDigits | utils.py:4-7 | six hex digits after the leading #s parse as the base-16 values of the pairs at offsets 0, 2 and 4 |
| HexColor.ShortSliceRange | utils.py:7 | any slice of at most two characters that parses lies in -15..255 |
| HexColor.ComponentRange | utils.py:4-7 | every component returned lies in -15..255 |
| HexColor.TooShortRaises | utils.py:6-7 | with at most four characters after the '#'s the last slice is empty and ValueError is raised |
| HexColor.IgnoresTail | utils.py:7 | characters after the sixth never change the result |
| HexColor.LStripHashAppend | utils.py:6 | stripping '#'s commutes with appending a tail once a non-'#' remains |
| HexColor.RoundTrip | utils.py:4-7 | formatting any 0..255 triple as '#' plus three two-digit pairs and parsing gives the triple back |
| HexColor.FiveCharacters | utils.py:6-7 | "#12345" parses, its last component being the single digit 5 |
| HexColor.SignedPairs | utils.py:7 | "#-1-1-1" parses to (-1, -1, -1) |
| HexColor.SpacedPairs | utils.py:7 | a space before a digit is stripped: "# 1 1 1" parses to (1, 1, 1) |
| HexColor.SeparatorNotSpace | utils.py:7 | the ASCII separator U+001C is not stripped: "#\x1c1\x1c1\x1c1" raises ValueError |
| Images.ConvertRgb | video_processor.py:51 | conversion to RGB keeps the size and is the identity on RGB |
| Images.Resample | utils.py:123 | `img.resize((w, h), Image.LANCZOS)`: the requested size, the input's mode |
| Images.Canvas | utils.py:144 | `Image.new('RGB', target_size, bg_color)`: an RGB image of the frame's size in the colour |
| Images.Crop | utils.py:130 | the crop of a whole-pixel box: the box's size, the source's mode, blank outside the source |
| Images.Paste | utils.py:144-146 | pasting onto the RGB canvas: the pasted image converted to RGB inside its rectangle, the canvas elsewhere |
| Filters.RotatedSize | utils.py:28 | the expanded canvas: a multiple of 180 degrees keeps the size, an odd multiple of 90 swaps it |
| Filters.Rotated | utils.py:27-28 | `rotate(-angle, expand=True)`: the canvas size above and the input's mode |
| Filters.SepiaPixel | utils.py:62-70 | the 3x3 sepia matrix applied to one RGB pixel, each channel clipped to 255 |
| Filters.Sepia | utils.py:61-71 | sepia on an RGB image keeps its size; any other mode raises ValueError |
| Filters.InvertKeepAlpha | utils.py:52-57 | RGBA invert: R, G, B become 255 - v and alpha is kept |
| Filters.InvertAll | utils.py:59 | `ImageOps.invert` on a pixel: every channel v becomes 255 - v |
| Filters.Grayscaled | utils.py:48-49 | the luminance copied into three bands: an RGB image of the same size |
| Filters.Inverted | utils.py:51-59 | the RGBA branch for RGBA images, `ImageOps.invert` of every channel otherwise |
| Filters.StepAt | utils.py:27-95 | the step each place of the chain runs, with its condition and parameter |
| Filters.Plan | utils.py:26-95 | the steps the dict switches on, in the chain's order |
| Filters.ApplyStep | utils.py:27-95 | one step of the chain on an image; only sepia can raise |
| Filters.Run | utils.py:24-97 | the steps applied one after another to the copy, the first error ending the chain |
| Filters.ApplyFilters | utils.py:9-97 | `apply_image_filters(image, filters)` as the plan run over the image |
| Filters.SepiaChannel | utils.py:61-71 | each sepia channel is min(255, floor(row . rgb)) and lies in 0..255 |
| Filters.Mod360 | utils.py:28 | the rotation angle is reduced to [0, 360) |
| Filters.Rank | utils.py:26-95 | every step has one of the 15 places of the chain |
| Filters.Table | utils.py:26-95 | the chain has 15 places, each holding at most its own step |
| Filters.ApplyImageFilters | utils.py:9-97 | the chain of conditionals computes the plan folded over the image |
| Filters.Transformations | utils.py:26-28 | rotation by the negated angle with expand, only for a truthy angle |
| Filters.ColorEnhancements | utils.py:30-45 | brightness, contrast, saturation, sharpness in that order, each only when not 1.0 |
| Filters.PixelEffects | utils.py:47-71 | grayscale, invert, sepia in that order, each only when truthy; sepia may raise |
| Filters.KernelFilters | utils.py:73-86 | blur for radius > 0, then emboss, contour, detail, edge enhance when truthy |
| Filters.ToneMaps | utils.py:88-95 | posterize with bits default 4, solarize with threshold default 128 |
| Filters.Place | utils.py:27-95 | place k of the chain: the image itself when its condition is false, else its step's result |
| Filters.Between | utils.py:24-97 | the places i to j of the chain applied in turn, the first error ending it |
| Filters.BetweenIsRun | utils.py:24-97 | running the places from i to the end is running the collected steps |
| FilterFacts.TableAtRank | utils.py:27-95 | a step is at its own place exactly when its condition holds with its parameter |
| FilterFacts.PlanMembers | utils.py:27-95 | a step is in the plan if and only if its condition holds, with the parameter the code passes |
| FilterFacts.PlanOrder | utils.py:26-95 | the plan follows the fixed order rotate ... solarize, each step at most once |
| FilterFacts.CollectMembers | utils.py:26-95 | the collected steps are exactly the filled places from k on |
| FilterFacts.CollectSorted | utils.py:26-95 | the collected steps come in increasing place order |
| FilterFacts.EmptyFilters | utils.py:24-97 | an empty dict gives an empty plan and the image itself |
| FilterFacts.NeutralFilters | utils.py:24-97 | the plan is empty exactly when every key read is absent or neutral, and then the image comes back as it is |
| FilterFacts.EditorDefaults | app.py:100-148 | the dict the editor sends for an untouched image (every slider at its start, every box unticked) leaves the image as it is |
| FilterFacts.UnreadKeyIgnored | utils.py:24-97 | a key the function never reads (e.g. "gamma") changes neither plan nor result |
| FilterFacts.PlaceKeepsShape | utils.py:31-95 | enhancers, blur, kernels, posterize and solarize keep size and mode |
| FilterFacts.SectionKeepsShape | utils.py:30-95 | the enhancement and kernel/tone sections never raise and keep size and mode |
| FilterFacts.RotationShape | utils.py:27-28 | rotation keeps the mode; the size is the rotated canvas when the angle is truthy |
| FilterFacts.PixelEffectsShape | utils.py:47-71 | the effects raise exactly for sepia without grayscale on a non-RGB image, keep the size, and give RGB after grayscale or sepia |
| FilterFacts.FilterOutcome | utils.py:9-97 | the function raises exactly in that case; otherwise size and mode are as stated |
| FilterFacts.RgbNeverRaises | utils.py:9-97 | on an RGB image the function never raises and returns RGB |
| FilterFacts.SepiaOrder | utils.py:62-71 | for non-negative channels R' >= G' >= B' |
| FilterFacts.SepiaBlackAndWhite | utils.py:61-71 | black stays black; white becomes (255, 255, 238) |
| FilterFacts.SepiaWarmsGray | utils.py:61-71 | a grey other than black comes out with red above blue |
| FilterFacts.InvertAllTwice | utils.py:59 | inverting a pixel twice gives it back |
| FilterFacts.InvertKeepsAlpha | utils.py:51-57 | on RGBA the mode stays RGBA, alpha is kept and R, G, B become 255 - v |
| FilterFacts.InvertTwice | utils.py:51-59 | the invert step applied twice gives the image back, whatever the mode |
| Fit.FitGeometry | utils.py:108-147 | the sizes, crop box and paste offset each method computes, and its ZeroDivisionError cases |
| Fit.ResizeForVideo | utils.py:99-149 | `resize_image_for_video`: resize, then crop ("cover") or paste on the background ("contain"), or the image itself for an unknown method |
| Fit.CenterBox | utils.py:125-130 | the centred crop box with its left and top edges floored and exactly the frame's size |
| Fit.PillowCropBox | utils.py:125-130 | the box as written: each half-pixel edge rounded half to even |
| Fit.CropAsWritten | utils.py:125-131 | the crop as written keeps the mode and is within one pixel of the frame on each axis |
| Fit.CoverFrameWidths | utils.py:115-131 | 1000x1000 covered onto 1081x1920: 1081 wide in the model, 1080 wide as written |
| Fit.ParseFit | utils.py:108-149 | a name other than the three is kept as an unknown method |
| Fit.FitErrors | utils.py:108-121 | ZeroDivisionError exactly for a zero height outside "stretch", or "cover" on a zero-width image |
| Fit.StretchAndUnknown | utils.py:108-149 | "stretch" always resizes to the frame; an unknown name leaves the image unchanged |
| Fit.ScaleToHeight | utils.py:112-139 | scaling to the frame height reaches the frame width for a wider image and stays within it otherwise |
| Fit.ScaleToWidth | utils.py:112-136 | scaling to the frame width: the mirror statement |
| Fit.CenterBoxInside | utils.py:125-130 | the centred box has the frame's size and lies inside the scaled image |
| Fit.CoverGeometry | utils.py:115-131 | cover: new_w >= target_w, new_h >= target_h, one equal; crop box exactly the frame's size inside the image; aspect kept to the floor |
| Fit.ContainGeometry | utils.py:133-147 | contain: new size within the target, one side equal; offsets (target - new) // 2 >= 0 with offset + new <= target; aspect kept |
| Fit.ResizeSize | utils.py:99-149 | every known method returns exactly the target size (RGB for contain); an unknown one returns the input |
| Fit.CoverShowsOnlyImage | utils.py:115-131 | every pixel of a cover frame is a pixel of the scaled image: no padding |
| Fit.ContainShowsWholeImage | utils.py:133-147 | every pixel of the scaled image is on a contain frame; the rest is background |
| Fit.RoundHalf | utils.py:126-130 | a half is rounded to the even neighbour |
| Fit.PillowCropWidth | utils.py:125-130 | as written, the cropped width is the target's iff the margin or the target width is even, else off by one |
| Fit.CoverCropCentred | utils.py:115-131 | 1000x1000 covered onto 1081x1920: scaled to 1920x1920, centred box 1081 wide |
| Fit.CoverCropOffByOne | utils.py:125-130 | the same case as written: box (420, 0, 1500, 1920), 1080 wide |
| TextLayer.Origin | video_processor.py:27-35 | the draw origin: x centres the text, y is 10 % or 80 % of the height or centres the text |
| TextLayer.CreateTextImage | video_processor.py:8-38 | `create_text_image`: a transparent RGBA layer of the requested size with the text drawn at the origin |
| TextLayer.LoadFont | video_processor.py:14-17 | the font: the TrueType file when the library can read it, the default font otherwise |
| TextLayer.TextSize | video_processor.py:19-21 | the text's width and height from the measured box |
| TextLayer.CentredHorizontally | video_processor.py:19-28 | x = (W - tw) / 2: left margin equals right margin |
| TextLayer.VerticalPlacement | video_processor.py:30-35 | "top" gives 0.1 H, "bottom" 0.8 H, anything else centres the text box |
| TextLayer.LayerShape | video_processor.py:24 | the layer is exactly the requested size and RGBA, whatever the text, font and alignment |
| Clips.CreateClip | video_processor.py:40-83 | `create_clip_from_data`: the fitted frame shown for the duration, with the text layer on top when there is text |
| Clips.OverlayShown | video_processor.py:69 | `text_overlay and text_overlay.get('text')`: a non-empty dict with non-empty text |
| Clips.TextImage | video_processor.py:70-76 | the overlay's text layer with the defaults fontsize 50, white and "center", at the frame's resolution |
| Clips.Frame | video_processor.py:51-59 | open the file (which may raise), convert and filter, then fit to the frame |
| Clips.FitFrame | video_processor.py:55-59 | parse the background colour, then fit the filtered image to the resolution |
| Clips.Filtered | video_processor.py:51-52 | the filters run on the RGB-converted image, never raise there, and give RGB |
| Clips.OverlayCondition | video_processor.py:47-78 | overlay composited iff its text is non-empty; defaults fontsize 50, white, center; duration default 3 |
| Clips.FitFrameOutcome | video_processor.py:55-59 | the frame fails iff the colour does not parse or the fit divides by zero; known fits give the resolution in RGB |
| Clips.ClipOutcome | video_processor.py:50-59 | the clip fails iff the file cannot be opened, the colour does not parse or the fit divides by zero (the filters never raise after conversion); known fits give the resolution in RGB |
| Clips.UnreadableImage | video_processor.py:51 | a file `Image.open` cannot read ends the clip with that error |
| Clips.Defaults | video_processor.py:46-59 | with no settings a plain entry becomes one 1080x1920 RGB frame for 3 seconds |
| Render.Build | video_processor.py:100-106 | clips in input order, one per entry, stopping at the first entry that raises |
| Render.Progress | video_processor.py:108-109 | k reports of (idx + 1) / n * 0.5 |
| Render.Reported | video_processor.py:108-109 | the values the callback receives: the progress values, none without a callback |
| Render.MakeClips | video_processor.py:97-109 | the loop builds the clips and reports progress after each clip |
| Render.AddAudio | video_processor.py:113-137 | trim, loop, volume and cut give the soundtrack; the video duration is untouched |
| Render.TotalDuration | video_processor.py:111 | the duration of the concatenation: the sum of the clips' |
| Render.EndGiven | video_processor.py:120 | `if end:`: an end time that is present and not zero |
| Render.Trimmed | video_processor.py:117-123 | how long the trimmed track plays |
| Render.Soundtrack | video_processor.py:114-137 | the track laid under a video: trimmed, looped when shorter and asked to, scaled in volume, cut to the video |
| Render.SoundtrackAsWritten | video_processor.py:114-137 | the audio section as written: a track that needs looping raises AttributeError |
| Render.Timeline | video_processor.py:111-137 | the concatenated clips with their total duration and the soundtrack |
| Render.RenderVideo | video_processor.py:85-151 | no entries: "No images to render", no reports, no output; else the error of the first failing clip, or the output path and a write of the timeline with fps default 30, libx264, aac, ultrafast, 4 threads |
| RenderFacts.ProgressRises | video_processor.py:108-109 | the n reports rise strictly, lie in (0, 0.5], and end at 0.5 |
| RenderFacts.TotalAppend | video_processor.py:111 | concatenation adds durations |
| RenderFacts.ClipDurations | video_processor.py:100-111 | clips carrying the entries' durations sum to the entries' total |
| RenderFacts.TimelineDuration | video_processor.py:100-111 | the video lasts the sum of the entries' durations (3 s default) |
| RenderFacts.SoundtrackLaw | video_processor.py:114-137 | track present iff path given; never longer than the video; looped to it iff shorter and loop on; else min(trimmed, video); gain = volume |
| RenderFacts.LoopFillsVideo | video_processor.py:125-137 | with loop on the track lasts exactly the video's duration |
| RenderFacts.LoopRaisesAsWritten | video_processor.py:125-127 | as written the audio section raises exactly when the intended track would be looped, and otherwise gives the same track |
| RenderFacts.ShortTrackLoopRaises | video_processor.py:125-127 | a 4 s track under 6.5 s of video with looping on (the editor's default) raises as written and is looped to 6.5 s as intended |
| RenderFacts.VolumeOnlyGain | video_processor.py:129-130 | the volume changes the gain and nothing else |
| RenderFacts.WorkedTimeline | video_processor.py:100-137 | clips of 2, 3, 1.5 s make 6.5 s; 10 s of audio is cut to 6.5, 4 s looped to 6.5, or kept at 4 without loop |

## Left out

- Fit.ResizeForVideo / Fit.FitGeometry: the cover crop uses the floored box
  `Fit.CenterBox`, so the frame is always the requested size; the code's
  half-pixel box, which Pillow rounds half to even, is modelled only by
  `Fit.PillowCropBox` and `Fit.CropAsWritten`. `Fit.ResizeSize`,
  `Clips.FitFrameOutcome` and `Clips.ClipOutcome` ("known fits give the
  resolution") hold for this corrected crop; as written, a frame of odd
  width or height can be one pixel off.
- Render.RenderVideo: `AudioFileClip(path)` raising on an unreadable or
  missing audio file is not modelled; the track's length comes from the
  backend. An unreadable image file is modelled (`OSError`).
- Render.AddAudio: loops a short track to the video's length with
  `audio_loop`, the intended behaviour. As written the code asks the video
  effects module for it, which in moviepy 1.x has no `audio_loop`; that
  reading of moviepy's layout is outside the modelled source.
  `Render.SoundtrackAsWritten` models the resulting AttributeError.
- Pixel semantics of Pillow are uninterpreted `Backend` fields: enhancers,
  grayscale luminance, blur, kernels, posterize, solarize, rotation and
  LANCZOS. The model fixes only the size and mode of their results.
- Rotation by an angle that is not a multiple of 90 takes its canvas size
  from the backend, because Pillow computes it in floating point.
- Floating point: positions, the sepia product, aspect ratios and durations
  are exact reals or rationals, so float rounding is not modelled.
  - The sepia product is computed in thousandths and floored. numpy's float
    product could land one unit lower at an exact integer boundary.
- Sepia on an L image exactly three pixels wide: numpy would not raise
  there. The model raises ValueError for every non-RGB image.
- Fonts: `ImageFont.truetype` is a readability predicate. A font size that
  Pillow rejects with ValueError is not modelled, and neither are glyph
  metrics, which come from `textBBox`.
- Temporary files: the processed image is not saved and re-read. The clip
  holds the image itself. The save's file name and the directory cleanup
  are I/O.
- moviepy: `ImageClip`, `CompositeVideoClip` and `concatenate_videoclips`
  keep only layers and durations.
  - `subclip` errors for an end past the file or before the start are
    not modelled.
  - A negative trimmed length is kept as a number.
  - The encoder call is recorded as an `Output` value and is not executed.
- Pillow's refusal to resize to a zero width or height, its clamping of an
  out-of-range background colour, and the mode restrictions of its
  filters are not modelled.
- HexColor.ParseInt16: `int()` also accepts the decimal digits of other
  scripts (`int('١٢', 16) == 18`); the model refuses them.
- The dict values of a filter are numbers, and `True`/`False` are 1 and 0,
  as Python compares them. A non-numeric value is not modelled.
- The progress callback is a flag. The values it receives are returned as
  a sequence.
- app.py is not part of this model, beyond the filter dict it sends for an
  untouched image (`FilterFacts.EditorDefaults`). Its session state,
  widgets, uploads and download button are UI.

## Findings

| source | as written | input that shows it | evidently intended | confidence | as-written member | corrected member |
|---|---|---|---|---|---|---|
| utils.py:125-130 | the cover crop box is `((new_w - target_w) / 2, ..., (new_w + target_w) / 2, ...)` in half pixels, which Pillow rounds half to even edge by edge | a 1000x1000 image, target (1081, 1920), fit "cover": box (420, 0, 1500, 1920), so the frame is 1080 wide | a box of exactly the target size, left edge floored | medium; not executed | Fit.CropAsWritten, Fit.CoverCropOffByOne | Fit.ResizeForVideo, Fit.CoverCropCentred |
| video_processor.py:125-127 | a track shorter than the video with looping on is passed to `vfx.audio_loop`; the video effects module of moviepy 1.x has no `audio_loop`, so AttributeError is raised | a 4 s track, a 6.5 s video, "Loop Audio" ticked (its default) | the audio effect `afx.audio_loop`, looping the track to the video's length | medium; not executed | Render.SoundtrackAsWritten, RenderFacts.ShortTrackLoopRaises | Render.Soundtrack, RenderFacts.LoopFillsVideo |

Pillow's crop is taken to round each edge of a float box with Python's
`round`; the application's own resolutions are all even, so only other
callers of `resize_image_for_video` meet the first finding. The second
rests on the layout of moviepy 1.x, whose `moviepy.editor` exports the
video effects as `vfx` and the audio effects as `afx`.
