/** `apply_image_filters`: the filter engine.

    The function reads a dict of optional settings and runs a fixed chain of
    steps on a copy of the image, each step only under its own condition.
    The model splits this in two: `Plan` says which steps run, with which
    parameters, in which order (a function of the dict alone), and `Run`
    folds the steps over the image. `ApplyImageFilters` is the chain of
    conditionals itself, proved to compute `Run(Plan(filters))`.

    The dict's values are numbers: Python compares and tests `True` and
    `False` as 1 and 0, and the function only ever compares its values, tests
    their truth, negates one and passes the others on, so a value is kept as
    the number it stands for. */
module Filters {
  import opened Outcomes
  import opened Images

  type FilterDict = map<string, real>

  /** `filters.get(key, default)`. */
  function Get(f: FilterDict, key: string, default: real): real
  {
    if key in f then f[key] else default
  }

  /** Python's truth test of a number. */
  predicate Truthy(x: real)
  {
    x != 0.0
  }

  // ---------------------------------------------------------------------
  // Pixel maps whose arithmetic is part of the function

  /** One row of the sepia matrix, in thousandths. */
  datatype Row = Row(r: int, g: int, b: int)

  const SepiaR := Row(393, 769, 189)
  const SepiaG := Row(349, 686, 168)
  const SepiaB := Row(272, 534, 131)

  /** One output channel of the sepia map: the row's dot product with the
      pixel, divided by 255, clipped to [0, 1], scaled by 255 and truncated
      to uint8; in exact arithmetic, the dot product clipped to [0, 255]
      and floored. */
  function SepiaChannel(row: Row, r: int, g: int, b: int): (v: int)
    ensures 0 <= v <= 255
  {
    var milli := row.r * r + row.g * g + row.b * b;
    if milli <= 0 then 0 else if milli >= 255000 then 255 else milli / 1000
  }

  function Sepia3(r: int, g: int, b: int): (out: (int, int, int))
  {
    (SepiaChannel(SepiaR, r, g, b), SepiaChannel(SepiaG, r, g, b), SepiaChannel(SepiaB, r, g, b))
  }

  /** The sepia map of an RGB pixel. */
  function SepiaPixel(p: Pixel): Pixel
  {
    var out := Sepia3(Ch(p, 0), Ch(p, 1), Ch(p, 2));
    [out.0, out.1, out.2]
  }

  /** `ImageOps.invert` on a pixel: every channel v becomes 255 - v. */
  function InvertAll(p: Pixel): Pixel
  {
    seq(|p|, i requires 0 <= i < |p| => 255 - p[i])
  }

  /** The RGBA branch: split the bands, invert R, G and B as an RGB image,
      merge the three inverted bands with the original alpha band. */
  function InvertKeepAlpha(p: Pixel): Pixel
  {
    var rgb := InvertAll([Ch(p, 0), Ch(p, 1), Ch(p, 2)]);
    [rgb[0], rgb[1], rgb[2], Ch(p, 3)]
  }

  // ---------------------------------------------------------------------
  // The steps

  /** `angle % 360.0` with Python's sign convention (result in [0, 360)). */
  function Mod360(angle: real): (a: real)
    ensures 0.0 <= a < 360.0
  {
    angle - 360.0 * ((angle / 360.0).Floor as real)
  }

  /** The canvas of `rotate(angle, expand=True)`: a multiple of 180 degrees
      keeps the size, an odd multiple of 90 swaps it; any other angle has
      the bounding box the library computes. */
  function RotatedSize(b: Backend, angle: real, w: nat, h: nat): (nat, nat)
  {
    var a := Mod360(angle);
    if a == 0.0 || a == 180.0 then (w, h)
    else if a == 90.0 || a == 270.0 then (h, w)
    else b.expandedSize(a, w, h)
  }

  /** `img.rotate(angle, expand=True)` (counter-clockwise degrees). */
  function Rotated(b: Backend, angle: real, img: Image): Image
  {
    var size := RotatedSize(b, angle, img.w, img.h);
    Image(size.0, size.1, img.mode, b.rotate(angle, img))
  }

  function Enhanced(b: Backend, kind: Enhancer, factor: real, img: Image): Image
  {
    img.(px := b.enhance(kind, factor, img))
  }

  /** `ImageOps.grayscale(img).convert("RGB")`: the luminance the library
      computes, copied into three bands. */
  function Grayscaled(b: Backend, img: Image): Image
  {
    Image(img.w, img.h, RGB, (x: nat, y: nat) =>
      var l := b.luminance(img, x, y); [l, l, l])
  }

  /** The invert step: RGBA keeps its alpha band, any other mode is inverted
      as a whole. */
  function Inverted(img: Image): Image
  {
    if img.mode == RGBA then img.(px := (x: nat, y: nat) => InvertKeepAlpha(img.px(x, y)))
    else img.(px := (x: nat, y: nat) => InvertAll(img.px(x, y)))
  }

  /** The sepia step. The numpy product of the pixel array with the 3 x 3
      matrix only yields an RGB image from an RGB one; on another mode the
      array has the wrong shape and numpy raises ValueError. */
  function Sepia(img: Image): Result<Image>
  {
    if img.mode != RGB then Err(ValueError("img_np.dot(sepia_filter.T)"))
    else Ok(img.(px := (x: nat, y: nat) => SepiaPixel(img.px(x, y))))
  }

  function Blurred(b: Backend, radius: real, img: Image): Image
  {
    img.(px := b.gaussianBlur(radius, img))
  }

  function Convolved(b: Backend, kind: Convolution, img: Image): Image
  {
    img.(px := b.convolve(kind, img))
  }

  function Posterized(b: Backend, bits: real, img: Image): Image
  {
    img.(px := b.posterize(bits, img))
  }

  function Solarized(b: Backend, threshold: real, img: Image): Image
  {
    img.(px := b.solarize(threshold, img))
  }

  datatype Step =
    | Rotate(angle: real)
    | Enhance(kind: Enhancer, factor: real)
    | Grayscale
    | Invert
    | SepiaTone
    | GaussianBlur(radius: real)
    | Convolve(filter: Convolution)
    | Posterize(bits: real)
    | Solarize(threshold: real)

  function ApplyStep(b: Backend, s: Step, img: Image): Result<Image>
  {
    match s
    case Rotate(angle) => Ok(Rotated(b, angle, img))
    case Enhance(kind, factor) => Ok(Enhanced(b, kind, factor, img))
    case Grayscale => Ok(Grayscaled(b, img))
    case Invert => Ok(Inverted(img))
    case SepiaTone => Sepia(img)
    case GaussianBlur(radius) => Ok(Blurred(b, radius, img))
    case Convolve(kind) => Ok(Convolved(b, kind, img))
    case Posterize(bits) => Ok(Posterized(b, bits, img))
    case Solarize(threshold) => Ok(Solarized(b, threshold, img))
  }

  /** The steps applied one after the other; the first that raises ends
      the run. */
  function Run(b: Backend, plan: seq<Step>, img: Image): Result<Image>
    decreases |plan|
  {
    if plan == [] then Ok(img)
    else
      match ApplyStep(b, plan[0], img)
      case Err(e) => Err(e)
      case Ok(next) => Run(b, plan[1..], next)
  }

  // ---------------------------------------------------------------------
  // The plan

  /** Number of places in the chain. */
  const Places := 15

  /** The place of a step in the chain: rotate, brightness, contrast,
      saturation, sharpness, grayscale, invert, sepia, blur, emboss, contour,
      detail, edge enhance, posterize, solarize. */
  function Rank(s: Step): (k: nat)
    ensures k < Places
  {
    match s
    case Rotate(_) => 0
    case Enhance(kind, _) =>
      (match kind
       case Brightness => 1
       case Contrast => 2
       case Color => 3
       case Sharpness => 4)
    case Grayscale => 5
    case Invert => 6
    case SepiaTone => 7
    case GaussianBlur(_) => 8
    case Convolve(kind) =>
      (match kind
       case Emboss => 9
       case Contour => 10
       case Detail => 11
       case EdgeEnhance => 12)
    case Posterize(_) => 13
    case Solarize(_) => 14
  }

  /** The dict key of each enhancer; saturation drives `ImageEnhance.Color`. */
  function EnhancerKey(kind: Enhancer): string
  {
    match kind
    case Brightness => "brightness"
    case Contrast => "contrast"
    case Color => "saturation"
    case Sharpness => "sharpness"
  }

  /** The dict key of each kernel. */
  function ConvolutionKey(kind: Convolution): string
  {
    match kind
    case Emboss => "emboss"
    case Contour => "contour"
    case Detail => "detail"
    case EdgeEnhance => "edge_enhance"
  }

  /** An enhancer runs when its factor differs from the neutral 1.0. */
  function EnhanceIf(f: FilterDict, kind: Enhancer): Option<Step>
  {
    var key := EnhancerKey(kind);
    if Get(f, key, 1.0) != 1.0 then Some(Enhance(kind, Get(f, key, 1.0))) else None
  }

  /** A toggle runs its step when its value is truthy. */
  function Toggle(f: FilterDict, key: string, s: Step): Option<Step>
  {
    if Truthy(Get(f, key, 0.0)) then Some(s) else None
  }

  /** The step at place `k` of the chain, if its condition holds. */
  function StepAt(f: FilterDict, k: nat): Option<Step>
    requires k < Places
  {
    if k == 0 then
      (if Truthy(Get(f, "rotate", 0.0)) then Some(Rotate(-Get(f, "rotate", 0.0))) else None)
    else if k == 1 then EnhanceIf(f, Brightness)
    else if k == 2 then EnhanceIf(f, Contrast)
    else if k == 3 then EnhanceIf(f, Color)
    else if k == 4 then EnhanceIf(f, Sharpness)
    else if k == 5 then Toggle(f, "grayscale", Grayscale)
    else if k == 6 then Toggle(f, "invert", Invert)
    else if k == 7 then Toggle(f, "sepia", SepiaTone)
    else if k == 8 then
      (if Get(f, "blur", 0.0) > 0.0 then Some(GaussianBlur(Get(f, "blur", 0.0))) else None)
    else if k == 9 then Toggle(f, ConvolutionKey(Emboss), Convolve(Emboss))
    else if k == 10 then Toggle(f, ConvolutionKey(Contour), Convolve(Contour))
    else if k == 11 then Toggle(f, ConvolutionKey(Detail), Convolve(Detail))
    else if k == 12 then Toggle(f, ConvolutionKey(EdgeEnhance), Convolve(EdgeEnhance))
    else if k == 13 then Toggle(f, "posterize", Posterize(Get(f, "posterize_bits", 4.0)))
    else Toggle(f, "solarize", Solarize(Get(f, "solarize_threshold", 128.0)))
  }

  /** The chain, place by place: the step each place runs when its
      condition holds, None when it does not. */
  function Table(f: FilterDict): (t: seq<Option<Step>>)
    ensures |t| == Places
  {
    seq(Places, k requires 0 <= k < Places => StepAt(f, k))
  }

  function AsSeq(o: Option<Step>): seq<Step>
  {
    if o.Some? then [o.value] else []
  }

  /** The steps of the places k, k + 1, ... of a table that run. */
  function Collect(t: seq<Option<Step>>, k: nat): seq<Step>
    requires k <= |t|
    decreases |t| - k
  {
    if k == |t| then [] else AsSeq(t[k]) + Collect(t, k + 1)
  }

  /** The steps `apply_image_filters` runs for `filters`, in order. */
  function Plan(f: FilterDict): seq<Step>
  {
    Collect(Table(f), 0)
  }

  /** The keys the function reads. */
  const ReadKeys: set<string> := {
    "rotate", "brightness", "contrast", "saturation", "sharpness", "grayscale", "invert", "sepia",
    "blur", "emboss", "contour", "detail", "edge_enhance", "posterize", "posterize_bits",
    "solarize", "solarize_threshold"
  }

  /** The result of `apply_image_filters(image, filters)`. */
  function ApplyFilters(b: Backend, image: Image, f: FilterDict): Result<Image>
  {
    Run(b, Plan(f), image)
  }

  // ---------------------------------------------------------------------
  // The function as written: a chain of conditional reassignments, one
  // method per section of the chain

  /** Place `k` of the chain applied to `img`: the image itself when the
      place's condition is false, else the result of its step. */
  function Place(b: Backend, f: FilterDict, k: nat, img: Image): Result<Image>
    requires k < Places
  {
    match StepAt(f, k)
    case None => Ok(img)
    case Some(s) => ApplyStep(b, s, img)
  }

  /** Places i, ..., k - 1 applied in order to `img`. */
  function Between(b: Backend, f: FilterDict, i: nat, k: nat, img: Image): Result<Image>
    requires i <= k <= Places
    decreases k - i
  {
    if k == i then Ok(img)
    else match Between(b, f, i, k - 1, img)
      case Err(e) => Err(e)
      case Ok(x) => Place(b, f, k - 1, x)
  }

  /** `img = image.copy()` followed by the whole chain. */
  method ApplyImageFilters(b: Backend, image: Image, f: FilterDict) returns (r: Result<Image>)
    ensures r == ApplyFilters(b, image, f)
  {
    var img := image;
    img := Transformations(b, f, img);
    var enhanced := ColorEnhancements(b, f, img);
    var toned := PixelEffects(b, f, enhanced);
    BetweenSplit(b, f, 0, 1, 5, image);
    BetweenSplit(b, f, 0, 5, 8, image);
    BetweenSplit(b, f, 0, 8, Places, image);
    BetweenIsRun(b, f, 0, image);
    if toned.Err? {
      return toned;
    }
    img := KernelFilters(b, f, toned.value);
    img := ToneMaps(b, f, img);
    BetweenSplit(b, f, 8, 13, Places, toned.value);
    r := Ok(img);
  }

  /** The rotation (place 0). */
  method Transformations(b: Backend, f: FilterDict, image: Image) returns (img: Image)
    ensures Between(b, f, 0, 1, image) == Ok(img)
  {
    img := image;
    if Truthy(Get(f, "rotate", 0.0)) {
      img := Rotated(b, -f["rotate"], img);
    }
  }

  /** The four enhancers (places 1 to 4). */
  method ColorEnhancements(b: Backend, f: FilterDict, image: Image) returns (img: Image)
    ensures Between(b, f, 1, 5, image) == Ok(img)
  {
    img := image;
    if Get(f, "brightness", 1.0) != 1.0 {
      img := Enhanced(b, Brightness, f["brightness"], img);
    }
    assert Between(b, f, 1, 2, image) == Ok(img);
    if Get(f, "contrast", 1.0) != 1.0 {
      img := Enhanced(b, Contrast, f["contrast"], img);
    }
    assert Between(b, f, 1, 3, image) == Ok(img);
    if Get(f, "saturation", 1.0) != 1.0 {
      img := Enhanced(b, Color, f["saturation"], img);
    }
    assert Between(b, f, 1, 4, image) == Ok(img);
    if Get(f, "sharpness", 1.0) != 1.0 {
      img := Enhanced(b, Sharpness, f["sharpness"], img);
    }
  }

  /** The effects whose pixel arithmetic the core states itself: grayscale,
      invert and sepia (places 5 to 7). Sepia on an image that is not RGB
      raises. */
  method PixelEffects(b: Backend, f: FilterDict, image: Image) returns (r: Result<Image>)
    ensures Between(b, f, 5, 8, image) == r
  {
    var img := image;
    if Truthy(Get(f, "grayscale", 0.0)) {
      img := Grayscaled(b, img);
    }
    assert Between(b, f, 5, 6, image) == Ok(img);
    if Truthy(Get(f, "invert", 0.0)) {
      img := Inverted(img);
    }
    assert Between(b, f, 5, 7, image) == Ok(img);
    if Truthy(Get(f, "sepia", 0.0)) {
      var toned := Sepia(img);
      if toned.Err? {
        return toned;
      }
      img := toned.value;
    }
    r := Ok(img);
  }

  /** The `img.filter` calls: blur and the four kernels (places 8 to 12). */
  method KernelFilters(b: Backend, f: FilterDict, image: Image) returns (img: Image)
    ensures Between(b, f, 8, 13, image) == Ok(img)
  {
    img := image;
    if Get(f, "blur", 0.0) > 0.0 {
      img := Blurred(b, f["blur"], img);
    }
    assert Between(b, f, 8, 9, image) == Ok(img);
    if Truthy(Get(f, "emboss", 0.0)) {
      img := Convolved(b, Emboss, img);
    }
    assert Between(b, f, 8, 10, image) == Ok(img);
    if Truthy(Get(f, "contour", 0.0)) {
      img := Convolved(b, Contour, img);
    }
    assert Between(b, f, 8, 11, image) == Ok(img);
    if Truthy(Get(f, "detail", 0.0)) {
      img := Convolved(b, Detail, img);
    }
    assert Between(b, f, 8, 12, image) == Ok(img);
    if Truthy(Get(f, "edge_enhance", 0.0)) {
      img := Convolved(b, EdgeEnhance, img);
    }
  }

  /** The two `ImageOps` tone maps with their defaults: posterize and
      solarize (places 13 and 14). */
  method ToneMaps(b: Backend, f: FilterDict, image: Image) returns (img: Image)
    ensures Between(b, f, 13, 15, image) == Ok(img)
  {
    img := image;
    if Truthy(Get(f, "posterize", 0.0)) {
      var bits := Get(f, "posterize_bits", 4.0);
      img := Posterized(b, bits, img);
    }
    assert Between(b, f, 13, 14, image) == Ok(img);
    if Truthy(Get(f, "solarize", 0.0)) {
      var threshold := Get(f, "solarize_threshold", 128.0);
      img := Solarized(b, threshold, img);
    }
  }

  /** Running two consecutive sections is running them as one. */
  lemma {:induction false} BetweenSplit(b: Backend, f: FilterDict, i: nat, j: nat, k: nat, img: Image)
    requires i <= j <= k <= Places
    ensures Between(b, f, i, k, img) ==
      match Between(b, f, i, j, img)
      case Err(e) => Err(e)
      case Ok(x) => Between(b, f, j, k, x)
    decreases k - j
  {
    if j < k {
      BetweenSplit(b, f, i, j, k - 1, img);
      match Between(b, f, i, j, img)
      case Err(e) =>
      case Ok(x) =>
    }
  }

  /** A section is its first place followed by the rest. */
  lemma BetweenFirst(b: Backend, f: FilterDict, i: nat, k: nat, img: Image)
    requires i < k <= Places
    ensures Between(b, f, i, k, img) ==
      match Place(b, f, i, img)
      case Err(e) => Err(e)
      case Ok(x) => Between(b, f, i + 1, k, x)
  {
    BetweenSplit(b, f, i, i + 1, k, img);
    assert Between(b, f, i, i + 1, img) == Place(b, f, i, img);
  }

  /** The steps from place i on, run in order, are place i followed by the
      steps from place i + 1 on. */
  lemma CollectFirst(b: Backend, f: FilterDict, i: nat, img: Image)
    requires i < Places
    ensures Run(b, Collect(Table(f), i), img) ==
      match Place(b, f, i, img)
      case Err(e) => Err(e)
      case Ok(x) => Run(b, Collect(Table(f), i + 1), x)
  {
    var t := Table(f);
    var rest := Collect(t, i + 1);
    assert t[i] == StepAt(f, i);
    if t[i].Some? {
      var s := t[i].value;
      assert Collect(t, i) == [s] + rest;
      assert ([s] + rest)[1..] == rest;
    } else {
      assert Collect(t, i) == rest;
    }
  }

  /** A section that ends at the last place is the plan's steps from its
      first place on, run in order. */
  lemma {:induction false} BetweenIsRun(b: Backend, f: FilterDict, i: nat, img: Image)
    requires i <= Places
    ensures Between(b, f, i, Places, img) == Run(b, Collect(Table(f), i), img)
    decreases Places - i
  {
    if i < Places {
      BetweenFirst(b, f, i, Places, img);
      CollectFirst(b, f, i, img);
      match Place(b, f, i, img)
      case Err(e) =>
      case Ok(x) => BetweenIsRun(b, f, i + 1, x);
    }
  }
}
