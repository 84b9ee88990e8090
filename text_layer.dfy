/** `create_text_image`: the transparent layer a text overlay is drawn on.

    The font is the requested TrueType file when the library can read it
    and the library's default font otherwise. The text's box is measured by
    the library; the core computes where to draw it: centred horizontally,
    and vertically at 10 % of the height ("top"), at 80 % ("bottom") or
    centred (anything else). Positions are Python floats; here they are
    exact reals. */
module TextLayer {
  import opened Images

  /** `ImageFont.truetype(font, fontsize)`, falling back to
      `ImageFont.load_default()` when it raises IOError. */
  function LoadFont(b: Backend, file: string, size: int): Font
  {
    if b.fontReadable(file) then TrueType(file, size) else DefaultFont
  }

  /** The text's width and height from the measured box
      `(left, top, right, bottom)`. */
  function TextSize(bbox: (int, int, int, int)): (int, int)
  {
    (bbox.2 - bbox.0, bbox.3 - bbox.1)
  }

  /** The draw origin `(x, y)` of a `tw x th` text on a `w x h` layer. */
  function Origin(w: nat, h: nat, tw: int, th: int, align: string): (real, real)
  {
    var x := (w as real - tw as real) / 2.0;
    var y :=
      if align == "top" then h as real * 0.1
      else if align == "bottom" then h as real * 0.8
      else (h as real - th as real) / 2.0;
    (x, y)
  }

  /** The whole function: a transparent RGBA layer of the requested size
      with the text drawn at the origin. */
  function CreateTextImage(b: Backend, text: string, fontsize: int, color: string,
                           font: string, w: nat, h: nat, align: string): Image
  {
    var fontObj := LoadFont(b, font, fontsize);
    var (tw, th) := TextSize(b.textBBox(fontObj, text));
    var (x, y) := Origin(w, h, tw, th, align);
    Image(w, h, RGBA, b.drawText(fontObj, text, color, x, y, w, h))
  }

  /** The text is centred horizontally: the margin left of it equals the
      margin right of it. */
  lemma CentredHorizontally(w: nat, h: nat, tw: int, th: int, align: string)
    ensures var (x, _) := Origin(w, h, tw, th, align);
            x == w as real - (x + tw as real)
  {
  }

  /** The three vertical placements: 10 % from the top, 80 % down (20 %
      from the bottom), or the text's box centred with equal margins. */
  lemma VerticalPlacement(w: nat, h: nat, tw: int, th: int, align: string)
    ensures var (_, y) := Origin(w, h, tw, th, align);
            (align == "top" ==> 10.0 * y == h as real) &&
            (align == "bottom" ==> 5.0 * y == 4.0 * h as real) &&
            (align != "top" && align != "bottom" ==> y == h as real - (y + th as real))
  {
  }

  /** The layer is exactly the requested size and RGBA, whatever the text,
      font and alignment. */
  lemma LayerShape(b: Backend, text: string, fontsize: int, color: string,
                   font: string, w: nat, h: nat, align: string)
    ensures var img := CreateTextImage(b, text, fontsize, color, font, w, h, align);
            img.w == w && img.h == h && img.mode == RGBA
  {
  }
}
