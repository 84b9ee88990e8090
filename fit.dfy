/** `resize_image_for_video`: fitting an image into the video frame.

    "stretch" resizes to the frame; "cover" scales until the image covers
    the frame and crops the centre; "contain" scales until the image fits
    and pastes it centred on a canvas of the background colour; any other
    method returns the image as it is. The aspect-ratio arithmetic is done
    here in exact rationals: `img_aspect > target_aspect` is the cross
    product comparison, and `int(a * b / c)` of non-negative numbers is the
    floor of the exact quotient. */
module Fit {
  import opened Outcomes
  import opened Images

  /** The crop box `(left, top, right, bottom)` in whole pixels. */
  datatype Box = Box(left: int, top: int, right: int, bottom: int)

  /** The `fit_method` argument: the three names the function tests, and
      anything else. */
  datatype FitMethod = Stretch | Cover | Contain | Other(name: string)

  function ParseFit(name: string): (m: FitMethod)
    ensures m.Other? ==> m.name == name
  {
    if name == "stretch" then Stretch
    else if name == "cover" then Cover
    else if name == "contain" then Contain
    else Other(name)
  }

  /** What the function does for one size and method. */
  datatype Geometry =
    | Stretched                                             // resize to the frame
    | Covered(newW: nat, newH: nat, box: Box)               // resize, then crop the box
    | Contained(newW: nat, newH: nat, offX: int, offY: int) // resize, then paste at the offset
    | Unchanged                                             // unknown method: the copy itself

  /** `img_aspect > target_aspect`, for positive heights. */
  predicate Wider(iw: nat, ih: nat, tw: nat, th: nat)
  {
    iw * th > tw * ih
  }

  /** The centred crop box the code means: `left = (new_w - target_w) / 2`
      taken down to a whole pixel, and a box exactly the frame's size. */
  function CenterBox(nw: nat, nh: nat, tw: nat, th: nat): Box
  {
    var left := (nw - tw) / 2;
    var top := (nh - th) / 2;
    Box(left, top, left + tw, top + th)
  }

  /** The sizes, box and offsets of `resize_image_for_video(image,
      (tw, th), fit_method)` for an `iw x ih` image. */
  function FitGeometry(iw: nat, ih: nat, tw: nat, th: nat, fit: FitMethod): Result<Geometry>
  {
    if fit == Stretch then Ok(Stretched)
    else if th == 0 then Err(ZeroDivisionError("target_w / target_h"))
    else if ih == 0 then Err(ZeroDivisionError("img_w / img_h"))
    else
      match fit
      case Cover =>
        if Wider(iw, ih, tw, th) then
          var nw := (th * iw) / ih;
          Ok(Covered(nw, th, CenterBox(nw, th, tw, th)))
        else if iw == 0 then Err(ZeroDivisionError("new_w / img_aspect"))
        else
          var nh := (tw * ih) / iw;
          Ok(Covered(tw, nh, CenterBox(tw, nh, tw, th)))
      case Contain =>
        if Wider(iw, ih, tw, th) then
          var nh := (tw * ih) / iw;
          Ok(Contained(tw, nh, 0, (th - nh) / 2))
        else
          var nw := (th * iw) / ih;
          Ok(Contained(nw, th, (tw - nw) / 2, 0))
      case _ => Ok(Unchanged)
  }

  /** The whole function on an image: `bg` is the background colour as an
      RGB pixel. */
  function ResizeForVideo(b: Backend, img: Image, tw: nat, th: nat, fit: FitMethod, bg: Pixel): Result<Image>
  {
    match FitGeometry(img.w, img.h, tw, th, fit)
    case Err(e) => Err(e)
    case Ok(Stretched) => Ok(Resample(b, img, tw, th))
    case Ok(Covered(nw, nh, box)) => Ok(Crop(Resample(b, img, nw, nh), box.left, box.top, tw, th))
    case Ok(Contained(nw, nh, ox, oy)) => Ok(Paste(Canvas(tw, th, bg), Resample(b, img, nw, nh), ox, oy))
    case Ok(Unchanged) => Ok(img)
  }

  // ---------------------------------------------------------------------
  // Floors

  /** The floor of p / d lies within one step of p / d. */
  lemma DivBounds(p: nat, d: nat)
    requires d > 0
    ensures d * (p / d) <= p < d * (p / d) + d
  {
  }

  /** Multiplying by d keeps the order. */
  lemma {:induction false} MulMonotone(a: nat, b: nat, d: nat)
    requires a <= b
    ensures a * d <= b * d
    decreases b - a
  {
    if a < b {
      MulMonotone(a + 1, b, d);
      assert (a + 1) * d == a * d + d;
    }
  }

  /** Multiplying by a positive d reflects strict order. */
  lemma MulCancel(a: nat, b: nat, d: nat)
    requires d > 0 && a * d < b * d
    ensures a < b
  {
    if b <= a {
      MulMonotone(b, a, d);
    }
  }

  /** A multiple of d below p stays below the floor of p / d. */
  lemma DivAtLeast(p: nat, d: nat, c: nat)
    requires d > 0 && c * d <= p
    ensures c <= p / d
  {
    DivBounds(p, d);
    assert (p / d + 1) * d == d * (p / d) + d;
    MulCancel(c, p / d + 1, d);
  }

  /** The floor of p / d stays below any c with p <= c * d. */
  lemma DivAtMost(p: nat, d: nat, c: nat)
    requires d > 0 && p <= c * d
    ensures p / d <= c
  {
    DivBounds(p, d);
  }

  // ---------------------------------------------------------------------
  // Properties

  /** The function raises ZeroDivisionError exactly when a method other
      than "stretch" meets a zero height, or "cover" meets a zero-width
      image (its aspect is 0 and the code divides by it). */
  lemma FitErrors(iw: nat, ih: nat, tw: nat, th: nat, fit: FitMethod)
    ensures FitGeometry(iw, ih, tw, th, fit).Err? <==>
              fit != Stretch && (th == 0 || ih == 0 || (fit == Cover && iw == 0))
  {
    if fit == Cover && th > 0 && ih > 0 && iw == 0 {
      assert !Wider(iw, ih, tw, th);
    }
  }

  /** "stretch" resizes to the frame whatever the sizes; any other name
      leaves the image as it is. */
  lemma StretchAndUnknown(iw: nat, ih: nat, tw: nat, th: nat, name: string)
    ensures name == "stretch" ==> FitGeometry(iw, ih, tw, th, ParseFit(name)) == Ok(Stretched)
    ensures name != "stretch" && name != "cover" && name != "contain" && th > 0 && ih > 0 ==>
              FitGeometry(iw, ih, tw, th, ParseFit(name)) == Ok(Unchanged)
  {
  }

  /** Scaling to the frame's height: the width reaches the frame's when the
      image is wider, and stays within it otherwise; the aspect ratio is
      kept up to the floor. */
  lemma ScaleToHeight(iw: nat, ih: nat, tw: nat, th: nat)
    requires ih > 0
    ensures var nw := (th * iw) / ih;
            nw * ih <= th * iw < (nw + 1) * ih &&
            (Wider(iw, ih, tw, th) ==> nw >= tw) &&
            (!Wider(iw, ih, tw, th) ==> nw <= tw)
  {
    var p := th * iw;
    DivBounds(p, ih);
    if Wider(iw, ih, tw, th) {
      DivAtLeast(p, ih, tw);
    } else {
      DivAtMost(p, ih, tw);
    }
  }

  /** Scaling to the frame's width, the mirror case. */
  lemma ScaleToWidth(iw: nat, ih: nat, tw: nat, th: nat)
    requires iw > 0
    ensures var nh := (tw * ih) / iw;
            nh * iw <= tw * ih < (nh + 1) * iw &&
            (Wider(iw, ih, tw, th) ==> nh <= th) &&
            (!Wider(iw, ih, tw, th) ==> nh >= th)
  {
    var p := tw * ih;
    DivBounds(p, iw);
    if Wider(iw, ih, tw, th) {
      DivAtMost(p, iw, th);
    } else {
      DivAtLeast(p, iw, th);
    }
  }

  /** The centred box of a frame inside a larger image lies inside it and
      has the frame's size. */
  lemma CenterBoxInside(nw: nat, nh: nat, tw: nat, th: nat)
    requires nw >= tw && nh >= th
    ensures var box := CenterBox(nw, nh, tw, th);
            box.right - box.left == tw && box.bottom - box.top == th &&
            0 <= box.left && box.right <= nw && 0 <= box.top && box.bottom <= nh
  {
  }

  /** "cover" scales so that the image reaches the frame on both axes and
      matches it on one, keeps the aspect ratio up to the floor, and crops
      a box of exactly the frame's size lying inside the scaled image. */
  lemma CoverGeometry(iw: nat, ih: nat, tw: nat, th: nat)
    requires FitGeometry(iw, ih, tw, th, Cover).Ok?
    ensures FitGeometry(iw, ih, tw, th, Cover).value.Covered?
    ensures var g := FitGeometry(iw, ih, tw, th, Cover).value;
            g.newW >= tw && g.newH >= th && (g.newW == tw || g.newH == th)
    ensures var g := FitGeometry(iw, ih, tw, th, Cover).value;
            g.box.right - g.box.left == tw && g.box.bottom - g.box.top == th
    ensures var g := FitGeometry(iw, ih, tw, th, Cover).value;
            0 <= g.box.left && g.box.right <= g.newW && 0 <= g.box.top && g.box.bottom <= g.newH
    ensures var g := FitGeometry(iw, ih, tw, th, Cover).value;
            (g.newH == th && g.newW * ih <= th * iw < (g.newW + 1) * ih) ||
            (g.newW == tw && g.newH * iw <= tw * ih < (g.newH + 1) * iw)
  {
    if Wider(iw, ih, tw, th) {
      ScaleToHeight(iw, ih, tw, th);
      CenterBoxInside((th * iw) / ih, th, tw, th);
    } else {
      ScaleToWidth(iw, ih, tw, th);
      CenterBoxInside(tw, (tw * ih) / iw, tw, th);
    }
  }

  /** "contain" scales so that the image fits the frame and matches it on
      one axis, keeps the aspect ratio up to the floor, and pastes it at
      offsets that keep it inside the frame. */
  lemma ContainGeometry(iw: nat, ih: nat, tw: nat, th: nat)
    requires th > 0 && ih > 0
    ensures FitGeometry(iw, ih, tw, th, Contain).Ok?
    ensures FitGeometry(iw, ih, tw, th, Contain).value.Contained?
    ensures var g := FitGeometry(iw, ih, tw, th, Contain).value;
            g.newW <= tw && g.newH <= th && (g.newW == tw || g.newH == th)
    ensures var g := FitGeometry(iw, ih, tw, th, Contain).value;
            g.offX == (tw - g.newW) / 2 && g.offY == (th - g.newH) / 2 &&
            0 <= g.offX && g.offX + g.newW <= tw && 0 <= g.offY && g.offY + g.newH <= th
    ensures var g := FitGeometry(iw, ih, tw, th, Contain).value;
            (g.newW == tw && g.newH * iw <= tw * ih < (g.newH + 1) * iw) ||
            (g.newH == th && g.newW * ih <= th * iw < (g.newW + 1) * ih)
  {
    if Wider(iw, ih, tw, th) {
      assert iw > 0;
      ScaleToWidth(iw, ih, tw, th);
    } else {
      ScaleToHeight(iw, ih, tw, th);
    }
  }

  /** Every method the function knows returns an image of the frame's
      size, RGB after "contain" (the canvas is RGB) and in the input's mode
      otherwise; an unknown one returns the input. */
  lemma ResizeSize(b: Backend, img: Image, tw: nat, th: nat, fit: FitMethod, bg: Pixel)
    requires ResizeForVideo(b, img, tw, th, fit, bg).Ok?
    ensures var out := ResizeForVideo(b, img, tw, th, fit, bg).value;
            if fit.Other? then out == img
            else out.w == tw && out.h == th && out.mode == (if fit == Contain then RGB else img.mode)
  {
  }

  /** "cover" never shows anything but the scaled image: every pixel of the
      frame is a pixel of the scaled image, at the crop offset, so no
      padding appears. */
  lemma CoverShowsOnlyImage(b: Backend, img: Image, tw: nat, th: nat, bg: Pixel,
                            nw: nat, nh: nat, box: Box, x: nat, y: nat)
    requires FitGeometry(img.w, img.h, tw, th, Cover) == Ok(Covered(nw, nh, box))
    requires x < tw && y < th
    ensures ResizeForVideo(b, img, tw, th, Cover, bg).Ok?
    ensures 0 <= box.left + x < nw && 0 <= box.top + y < nh
    ensures ResizeForVideo(b, img, tw, th, Cover, bg).value.px(x, y) ==
              Resample(b, img, nw, nh).px(box.left + x, box.top + y)
  {
    CoverGeometry(img.w, img.h, tw, th);
  }

  /** "contain" never crops: every pixel of the scaled image is on the
      frame, converted to RGB, at the offset; the rest of the frame is the
      background. */
  lemma ContainShowsWholeImage(b: Backend, img: Image, tw: nat, th: nat, bg: Pixel,
                               nw: nat, nh: nat, ox: int, oy: int, x: nat, y: nat)
    requires FitGeometry(img.w, img.h, tw, th, Contain) == Ok(Contained(nw, nh, ox, oy))
    ensures ResizeForVideo(b, img, tw, th, Contain, bg).Ok?
    ensures ResizeForVideo(b, img, tw, th, Contain, bg).value.mode == RGB
    ensures x < nw && y < nh ==>
              0 <= ox + x < tw && 0 <= oy + y < th &&
              ResizeForVideo(b, img, tw, th, Contain, bg).value.px(ox + x, oy + y) ==
                ToRgbPixel(img.mode, Resample(b, img, nw, nh).px(x, y))
    ensures !(ox <= x < ox + nw && oy <= y < oy + nh) ==>
              ResizeForVideo(b, img, tw, th, Contain, bg).value.px(x, y) == bg
  {
    ContainGeometry(img.w, img.h, tw, th);
  }

  // ---------------------------------------------------------------------
  // The crop box as the code computes it

  /** Python's `round` of n / 2: halves go to the even neighbour. */
  function RoundHalf(n: int): (r: int)
    ensures n % 2 == 0 ==> 2 * r == n
    ensures n % 2 == 1 ==> (2 * r == n - 1 || 2 * r == n + 1) && r % 2 == 0
  {
    if n % 2 == 0 then n / 2
    else if ((n - 1) / 2) % 2 == 0 then (n - 1) / 2
    else (n + 1) / 2
  }

  /** The box `img.crop((left, top, right, bottom))` receives as written:
      half-pixel coordinates, which the library rounds one by one. */
  function PillowCropBox(nw: nat, nh: nat, tw: nat, th: nat): Box
  {
    Box(RoundHalf(nw - tw), RoundHalf(nh - th), RoundHalf(nw + tw), RoundHalf(nh + th))
  }

  /** As written, the cropped width is the frame's width exactly when the
      margin is even or the frame's width is even; otherwise it is one
      pixel off. */
  lemma PillowCropWidth(nw: nat, tw: nat)
    ensures var box := PillowCropBox(nw, 0, tw, 0);
            box.right - box.left == tw <==> (nw - tw) % 2 == 0 || tw % 2 == 0
    ensures var box := PillowCropBox(nw, 0, tw, 0);
            box.right - box.left == tw - 1 || box.right - box.left == tw || box.right - box.left == tw + 1
  {
    var box := PillowCropBox(nw, 0, tw, 0);
    var l, r := RoundHalf(nw - tw), RoundHalf(nw + tw);
    if (nw - tw) % 2 == 1 {
      assert (nw + tw) % 2 == 1;
      if tw % 2 == 1 {
        assert r - l != tw;
      }
    }
  }

  /** A 1000 x 1000 image covered onto a 1081 x 1920 frame is scaled to
      1920 x 1920, and the centred box is 1081 pixels wide ... */
  lemma CoverCropCentred()
    ensures FitGeometry(1000, 1000, 1081, 1920, Cover) == Ok(Covered(1920, 1920, Box(419, 0, 1500, 1920)))
  {
    assert Wider(1000, 1000, 1081, 1920);
    assert (1920 * 1000) / 1000 == 1920;
  }

  /** ... while the box as written is (420, 0, 1500, 1920), 1080 wide. */
  lemma CoverCropOffByOne()
    ensures PillowCropBox(1920, 1920, 1081, 1920) == Box(420, 0, 1500, 1920)
    ensures PillowCropBox(1920, 1920, 1081, 1920).right - PillowCropBox(1920, 1920, 1081, 1920).left == 1080
  {
    assert RoundHalf(839) == 420;
    assert RoundHalf(3001) == 1500;
  }

  /** The crop of the scaled image `scaled` as written: the half-pixel box
      rounded edge by edge, so the frame is as wide and as high as the
      rounded box. */
  function CropAsWritten(scaled: Image, tw: nat, th: nat): (out: Image)
    requires scaled.w >= tw && scaled.h >= th
    ensures out.mode == scaled.mode
    ensures tw - 1 <= out.w <= tw + 1 && th - 1 <= out.h <= th + 1
  {
    var box := PillowCropBox(scaled.w, scaled.h, tw, th);
    PillowCropWidth(scaled.w, tw);
    PillowCropWidth(scaled.h, th);
    assert PillowCropBox(scaled.h, 0, th, 0).right - PillowCropBox(scaled.h, 0, th, 0).left == box.bottom - box.top;
    Crop(scaled, box.left, box.top, box.right - box.left, box.bottom - box.top)
  }

  /** On the same 1000 x 1000 image and 1081 x 1920 frame the modelled
      function gives a frame 1081 wide, while the crop as written gives one
      1080 wide. */
  lemma CoverFrameWidths(b: Backend, img: Image, bg: Pixel)
    requires img.w == 1000 && img.h == 1000
    ensures ResizeForVideo(b, img, 1081, 1920, Cover, bg).Ok?
    ensures ResizeForVideo(b, img, 1081, 1920, Cover, bg).value.w == 1081
    ensures CropAsWritten(Resample(b, img, 1920, 1920), 1081, 1920).w == 1080
  {
    var scaled := Resample(b, img, 1920, 1920);
    CoverCropCentred();
    CoverFrameIs(b, img, 1081, 1920, bg, 1920, 1920, Box(419, 0, 1500, 1920));
    assert scaled.w == 1920 && scaled.h == 1920;
    assert CropAsWritten(scaled, 1081, 1920).w == 1080 by {
      CoverCropOffByOne();
    }
  }

  /** A "cover" geometry gives the crop of the scaled image at the box. */
  lemma CoverFrameIs(b: Backend, img: Image, tw: nat, th: nat, bg: Pixel, nw: nat, nh: nat, box: Box)
    requires FitGeometry(img.w, img.h, tw, th, Cover) == Ok(Covered(nw, nh, box))
    ensures ResizeForVideo(b, img, tw, th, Cover, bg) == Ok(Crop(Resample(b, img, nw, nh), box.left, box.top, tw, th))
    ensures ResizeForVideo(b, img, tw, th, Cover, bg).value.w == tw
  {
  }
}
