/** Images as the core sees them, and the library calls it makes on them.

    An image is its size, its Pillow mode and its pixels. Pixels are a total
    function of the coordinates: only the points inside the size matter, and
    every operation below states the size of what it returns, so "the image
    has the requested size" is a fact about the record, not about a buffer.

    Pillow, the font machinery and moviepy are not part of this model. The
    calls the core makes into them are the fields of a `Backend` value, which
    every operation takes as a parameter: nothing is assumed about what those
    functions compute except what the model itself does with their results
    (in particular, the size of every result is fixed by the model). */
module Images {
  import opened Outcomes

  /** The three modes the core meets: "L" (luminance), "RGB" and "RGBA". */
  datatype Mode = L | RGB | RGBA

  /** One pixel: its channel values, in band order (R, G, B, A for RGBA). */
  type Pixel = seq<int>

  type Grid = (nat, nat) -> Pixel

  datatype Image = Image(w: nat, h: nat, mode: Mode, px: Grid)

  /** The four ImageEnhance classes the filter engine uses. */
  datatype Enhancer = Brightness | Contrast | Color | Sharpness

  /** The four fixed convolution kernels of ImageFilter the engine uses. */
  datatype Convolution = Emboss | Contour | Detail | EdgeEnhance

  /** `ImageFont.truetype(file, size)`, or the fallback `ImageFont.load_default()`. */
  datatype Font = TrueType(file: string, size: int) | DefaultFont

  /** The library calls of the core, left uninterpreted. */
  datatype Backend = Backend(
    imageReadable: string -> bool,                    // Image.open(path) does not raise
    open: string -> Image,                            // Image.open(path), when it does not raise
    rotate: (real, Image) -> Grid,                    // pixels of img.rotate(angle, expand=True)
    expandedSize: (real, nat, nat) -> (nat, nat),     // canvas of that rotation when the angle is not a right angle
    enhance: (Enhancer, real, Image) -> Grid,         // ImageEnhance.<kind>(img).enhance(factor)
    luminance: (Image, nat, nat) -> int,              // ImageOps.grayscale(img), one pixel
    gaussianBlur: (real, Image) -> Grid,              // img.filter(ImageFilter.GaussianBlur(radius))
    convolve: (Convolution, Image) -> Grid,           // img.filter(ImageFilter.<kernel>)
    posterize: (real, Image) -> Grid,                 // ImageOps.posterize(img, bits)
    solarize: (real, Image) -> Grid,                  // ImageOps.solarize(img, threshold)
    lanczos: (Image, nat, nat) -> Grid,               // img.resize((w, h), Image.LANCZOS)
    fontReadable: string -> bool,                     // ImageFont.truetype does not raise IOError
    textBBox: (Font, string) -> (int, int, int, int), // draw.textbbox((0, 0), text, font)
    drawText: (Font, string, string, real, real, nat, nat) -> Grid, // draw.text((x, y), ...) on a transparent w x h layer
    audioDuration: string -> real                     // AudioFileClip(path).duration
  )

  function Channels(m: Mode): nat
  {
    match m
    case L => 1
    case RGB => 3
    case RGBA => 4
  }

  /** Channel `i` of `p`, or 0 past its end (a well-formed pixel of the mode
      always has the channel; the default only makes the maps total). */
  function Ch(p: Pixel, i: nat): int
  {
    if i < |p| then p[i] else 0
  }

  /** A pixel of mode `m` as Pillow converts it to RGB: luminance is copied to
      the three bands, alpha is dropped. */
  function ToRgbPixel(m: Mode, p: Pixel): Pixel
  {
    match m
    case L => [Ch(p, 0), Ch(p, 0), Ch(p, 0)]
    case RGB => p
    case RGBA => [Ch(p, 0), Ch(p, 1), Ch(p, 2)]
  }

  /** `img.convert('RGB')`. */
  function ConvertRgb(img: Image): (r: Image)
    ensures r.w == img.w && r.h == img.h && r.mode == RGB
    ensures img.mode == RGB ==> r == img
  {
    if img.mode == RGB then img
    else Image(img.w, img.h, RGB, (x: nat, y: nat) => ToRgbPixel(img.mode, img.px(x, y)))
  }

  /** `img.resize((w, h), Image.LANCZOS)`: the pixels are the library's, the
      size is the requested one and the mode is kept. */
  function Resample(b: Backend, img: Image, w: nat, h: nat): Image
  {
    Image(w, h, img.mode, b.lanczos(img, w, h))
  }

  /** A pixel of mode `m` with every channel 0 (what Pillow's crop shows
      outside the source). */
  function Blank(m: Mode): Pixel
  {
    seq(Channels(m), _ => 0)
  }

  /** `img.crop((left, top, left + w, top + h))` for an integer box. */
  function Crop(img: Image, left: int, top: int, w: nat, h: nat): Image
  {
    Image(w, h, img.mode, (x: nat, y: nat) =>
      var sx, sy := left + x, top + y;
      if 0 <= sx < img.w && 0 <= sy < img.h then img.px(sx, sy) else Blank(img.mode))
  }

  /** `Image.new('RGB', (w, h), color)`. */
  function Canvas(w: nat, h: nat, color: Pixel): Image
  {
    Image(w, h, RGB, (x: nat, y: nat) => color)
  }

  /** `bg.paste(img, (ox, oy))` onto an RGB canvas: inside the pasted
      rectangle the pixels are `img`'s, converted to RGB; elsewhere the
      canvas is untouched. */
  function Paste(bg: Image, img: Image, ox: int, oy: int): Image
  {
    Image(bg.w, bg.h, bg.mode, (x: nat, y: nat) =>
      var sx, sy := x - ox, y - oy;
      if 0 <= sx < img.w && 0 <= sy < img.h then ToRgbPixel(img.mode, img.px(sx, sy)) else bg.px(x, y))
  }
}
