/** `create_clip_from_data`: one timeline entry made into a still clip.

    The image is opened and converted to RGB, run through the filter
    engine, fitted to the frame and shown for the entry's duration; when the
    entry has a text overlay with text, a transparent text layer of the
    frame's size is composited on top. The temporary file the processed
    image goes through is not modelled: the clip holds the image itself. */
module Clips {
  import opened Outcomes
  import opened Images
  import opened HexColor
  import opened Filters
  import opened FilterFacts
  import opened Fit
  import opened TextLayer

  /** The `text_overlay` dict: each key may be absent. */
  datatype Overlay = Overlay(text: Option<string>, fontsize: Option<int>,
                             color: Option<string>, align: Option<string>)

  /** One entry of `project_data['images']`. An absent `text_overlay` is
      the empty overlay. */
  datatype ImageData = ImageData(path: string, filters: Option<FilterDict>,
                                 duration: Option<real>, overlay: Overlay)

  /** `project_data['settings']`. */
  datatype Settings = Settings(resolution: Option<(nat, nat)>, bgColor: Option<string>,
                               fitMethod: Option<string>, fps: Option<real>)

  /** A still clip: its layers, bottom first, all shown for `duration`
      seconds. */
  datatype Clip = Clip(layers: seq<Image>, duration: real)

  const DefaultDuration := 3.0
  const DefaultResolution: (nat, nat) := (1080, 1920)
  const DefaultBackground := "#000000"
  const DefaultFit := "contain"
  const DefaultFontSize := 50
  const DefaultColor := "white"
  const DefaultAlign := "center"
  const FontFile := "arial.ttf"

  /** The truth of the overlay dict: it has at least one key. */
  predicate NonEmpty(o: Overlay)
  {
    o.text.Some? || o.fontsize.Some? || o.color.Some? || o.align.Some?
  }

  /** `text_overlay and text_overlay.get('text')`. */
  predicate OverlayShown(o: Overlay)
  {
    NonEmpty(o) && o.text.Some? && o.text.value != ""
  }

  function Resolution(s: Settings): (nat, nat)
  {
    GetOr(s.resolution, DefaultResolution)
  }

  /** The overlay's text layer, with its defaults, on a frame-sized canvas. */
  function TextImage(b: Backend, o: Overlay, text: string, res: (nat, nat)): Image
  {
    CreateTextImage(b, text, GetOr(o.fontsize, DefaultFontSize), GetOr(o.color, DefaultColor),
                    FontFile, res.0, res.1, GetOr(o.align, DefaultAlign))
  }

  /** The opened image converted to RGB and filtered. The filter engine
      raises only on sepia over a mode other than RGB, so on the converted
      image it never does. */
  function Filtered(b: Backend, data: ImageData): (img: Image)
    ensures ApplyFilters(b, ConvertRgb(b.open(data.path)), GetOr(data.filters, map[])) == Ok(img)
    ensures img.mode == RGB
  {
    RgbNeverRaises(b, ConvertRgb(b.open(data.path)), GetOr(data.filters, map[]));
    ApplyFilters(b, ConvertRgb(b.open(data.path)), GetOr(data.filters, map[])).value
  }

  /** The fitted frame: opening the file may raise; the background colour
      is parsed after filtering, and the filtered image is fitted to the
      resolution over it. */
  function Frame(b: Backend, data: ImageData, s: Settings): Result<Image>
  {
    if !b.imageReadable(data.path) then Err(OSError("Image.open(image_path)"))
    else FitFrame(b, Filtered(b, data), s)
  }

  function FitFrame(b: Backend, filtered: Image, s: Settings): Result<Image>
  {
    match HexToRgb(GetOr(s.bgColor, DefaultBackground))
    case Err(e) => Err(e)
    case Ok(bg) =>
      var res := Resolution(s);
      ResizeForVideo(b, filtered, res.0, res.1, ParseFit(GetOr(s.fitMethod, DefaultFit)), [bg.r, bg.g, bg.b])
  }

  /** The whole function. */
  function CreateClip(b: Backend, data: ImageData, s: Settings): Result<Clip>
  {
    var duration := GetOr(data.duration, DefaultDuration);
    match Frame(b, data, s)
    case Err(e) => Err(e)
    case Ok(frame) =>
      if OverlayShown(data.overlay) then
        Ok(Clip([frame, TextImage(b, data.overlay, data.overlay.text.value, Resolution(s))], duration))
      else
        Ok(Clip([frame], duration))
  }

  // ---------------------------------------------------------------------
  // Properties

  /** The overlay sits on top of the frame exactly when the overlay dict is
      non-empty and its text is non-empty; it is then an RGBA layer of the
      frame's resolution drawn with the defaults fontsize 50, white,
      "center", and the clip lasts the entry's duration, 3 seconds by
      default. */
  lemma OverlayCondition(b: Backend, data: ImageData, s: Settings)
    requires CreateClip(b, data, s).Ok?
    ensures var c := CreateClip(b, data, s).value;
            c.duration == GetOr(data.duration, 3.0) &&
            1 <= |c.layers| <= 2 && Ok(c.layers[0]) == Frame(b, data, s) &&
            (|c.layers| == 2 <==> data.overlay.text.Some? && data.overlay.text.value != "")
    ensures var c := CreateClip(b, data, s).value;
            var o := data.overlay;
            |c.layers| == 2 ==>
              c.layers[1].w == Resolution(s).0 && c.layers[1].h == Resolution(s).1 && c.layers[1].mode == RGBA &&
              c.layers[1] == CreateTextImage(b, o.text.value, GetOr(o.fontsize, 50), GetOr(o.color, "white"),
                                             "arial.ttf", Resolution(s).0, Resolution(s).1, GetOr(o.align, "center"))
  {
    var c := CreateClip(b, data, s).value;
    if |c.layers| == 2 {
      LayerShape(b, data.overlay.text.value, GetOr(data.overlay.fontsize, 50), GetOr(data.overlay.color, "white"),
                 "arial.ttf", Resolution(s).0, Resolution(s).1, GetOr(data.overlay.align, "center"));
    }
  }

  /** The clip fails exactly when the image file cannot be opened, the
      background colour does not parse or the fit divides by zero (the
      filters never raise on the RGB image);
      for the three known fits the frame has the target resolution and is
      RGB, and an unknown fit keeps the filtered image as it is. */
  lemma ClipOutcome(b: Backend, data: ImageData, s: Settings)
    ensures var filtered := Filtered(b, data);
            var fit := ParseFit(GetOr(s.fitMethod, "contain"));
            CreateClip(b, data, s).Err? <==>
              !b.imageReadable(data.path) ||
              HexToRgb(GetOr(s.bgColor, "#000000")).Err? ||
              FitGeometry(filtered.w, filtered.h, Resolution(s).0, Resolution(s).1, fit).Err?
    ensures var fit := ParseFit(GetOr(s.fitMethod, "contain"));
            CreateClip(b, data, s).Ok? ==>
              var frame := CreateClip(b, data, s).value.layers[0];
              if fit.Other? then frame == Filtered(b, data)
              else frame.w == Resolution(s).0 && frame.h == Resolution(s).1 && frame.mode == RGB
  {
    var filtered := Filtered(b, data);
    FitFrameOutcome(b, filtered, s);
    assert CreateClip(b, data, s).Ok? ==> Ok(CreateClip(b, data, s).value.layers[0]) == FitFrame(b, filtered, s);
  }

  lemma FitFrameOutcome(b: Backend, filtered: Image, s: Settings)
    requires filtered.mode == RGB
    ensures var fit := ParseFit(GetOr(s.fitMethod, "contain"));
            FitFrame(b, filtered, s).Err? <==>
              HexToRgb(GetOr(s.bgColor, "#000000")).Err? ||
              FitGeometry(filtered.w, filtered.h, Resolution(s).0, Resolution(s).1, fit).Err?
    ensures var fit := ParseFit(GetOr(s.fitMethod, "contain"));
            FitFrame(b, filtered, s).Ok? ==>
              var frame := FitFrame(b, filtered, s).value;
              if fit.Other? then frame == filtered
              else frame.w == Resolution(s).0 && frame.h == Resolution(s).1 && frame.mode == RGB
  {
    var fit := ParseFit(GetOr(s.fitMethod, "contain"));
    var bg := HexToRgb(GetOr(s.bgColor, "#000000"));
    if bg.Ok? && FitFrame(b, filtered, s).Ok? {
      ResizeSize(b, filtered, Resolution(s).0, Resolution(s).1, fit, [bg.value.r, bg.value.g, bg.value.b]);
    }
  }

  /** A file `Image.open` cannot read ends the clip with that error, before
      anything else is looked at. */
  lemma UnreadableImage(b: Backend, data: ImageData, s: Settings)
    requires !b.imageReadable(data.path)
    ensures CreateClip(b, data, s) == Err(OSError("Image.open(image_path)"))
  {
  }

  /** With no settings and a plain entry the clip is one RGB frame of
      1080 x 1920, shown for 3 seconds. */
  lemma Defaults(b: Backend, data: ImageData, s: Settings)
    requires s == Settings(None, None, None, None)
    requires data.filters == None && data.duration == None && data.overlay == Overlay(None, None, None, None)
    requires b.imageReadable(data.path) && b.open(data.path).h > 0
    ensures CreateClip(b, data, s).Ok?
    ensures var c := CreateClip(b, data, s).value;
            c.duration == 3.0 && |c.layers| == 1 &&
            c.layers[0].w == 1080 && c.layers[0].h == 1920 && c.layers[0].mode == RGB
  {
    RoundTrip(Rgb(0, 0, 0));
    assert FormatHex(Rgb(0, 0, 0)) == "#000000";
    var rgb := ConvertRgb(b.open(data.path));
    var filtered := Filtered(b, data);
    FilterOutcome(b, rgb, GetOr(data.filters, map[]));
    assert filtered.h == rgb.h;
    ContainGeometry(filtered.w, filtered.h, 1080, 1920);
    FitFrameOutcome(b, filtered, s);
  }
}
