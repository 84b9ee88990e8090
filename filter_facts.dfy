/** What `apply_image_filters` promises: which steps run, in which order,
    when the chain raises, what it does to the size and mode, and the
    pixel arithmetic of invert and sepia. */
module FilterFacts {
  import opened Outcomes
  import opened Images
  import opened Filters

  /** When a step runs, stated key by key: the condition the function tests
      and the parameter it passes. */
  predicate Runs(f: FilterDict, s: Step)
  {
    match s
    case Rotate(angle) => Truthy(Get(f, "rotate", 0.0)) && angle == -Get(f, "rotate", 0.0)
    case Enhance(kind, factor) =>
      Get(f, EnhancerKey(kind), 1.0) != 1.0 && factor == Get(f, EnhancerKey(kind), 1.0)
    case Grayscale => Truthy(Get(f, "grayscale", 0.0))
    case Invert => Truthy(Get(f, "invert", 0.0))
    case SepiaTone => Truthy(Get(f, "sepia", 0.0))
    case GaussianBlur(radius) => Get(f, "blur", 0.0) > 0.0 && radius == Get(f, "blur", 0.0)
    case Convolve(kind) => Truthy(Get(f, ConvolutionKey(kind), 0.0))
    case Posterize(bits) => Truthy(Get(f, "posterize", 0.0)) && bits == Get(f, "posterize_bits", 4.0)
    case Solarize(threshold) =>
      Truthy(Get(f, "solarize", 0.0)) && threshold == Get(f, "solarize_threshold", 128.0)
  }

  /** A step sits at its own place, and is there exactly when it runs. */
  lemma TableAtRank(f: FilterDict, s: Step)
    ensures Table(f)[Rank(s)] == Some(s) <==> Runs(f, s)
  {
    assert Table(f)[Rank(s)] == StepAt(f, Rank(s));
    match s
    case Enhance(kind, _) =>
      match kind {
        case Brightness =>
        case Contrast =>
        case Color =>
        case Sharpness =>
      }
    case Convolve(kind) =>
      match kind {
        case Emboss =>
        case Contour =>
        case Detail =>
        case EdgeEnhance =>
      }
    case _ =>
  }

  /** Every place holds only a step of that rank. */
  predicate Ranked(t: seq<Option<Step>>, rank: Step -> nat)
  {
    forall i :: 0 <= i < |t| && t[i].Some? ==> rank(t[i].value) == i
  }

  lemma TableRanked(f: FilterDict)
    ensures Ranked(Table(f), Rank)
  {
    var t := Table(f);
    forall i | 0 <= i < |t| && t[i].Some?
      ensures Rank(t[i].value) == i
    {
      assert t[i] == StepAt(f, i);
    }
  }

  lemma {:induction false} CollectMembers(t: seq<Option<Step>>, k: nat, s: Step)
    requires k <= |t|
    ensures s in Collect(t, k) <==> exists i :: k <= i < |t| && t[i] == Some(s)
    decreases |t| - k
  {
    if k < |t| {
      CollectMembers(t, k + 1, s);
      assert Collect(t, k) == AsSeq(t[k]) + Collect(t, k + 1);
      if s in Collect(t, k) {
        if s in Collect(t, k + 1) {
          var i :| k + 1 <= i < |t| && t[i] == Some(s);
          assert k <= i;
        } else {
          assert t[k] == Some(s);
        }
      }
      if exists i :: k <= i < |t| && t[i] == Some(s) {
        var i :| k <= i < |t| && t[i] == Some(s);
        if i == k {
          assert s in AsSeq(t[k]);
        } else {
          assert s in Collect(t, k + 1);
        }
      }
    }
  }

  lemma {:induction false} CollectSorted(t: seq<Option<Step>>, k: nat, rank: Step -> nat)
    requires k <= |t| && Ranked(t, rank)
    ensures forall i :: 0 <= i < |Collect(t, k)| ==> k <= rank(Collect(t, k)[i])
    ensures forall i, j :: 0 <= i < j < |Collect(t, k)| ==> rank(Collect(t, k)[i]) < rank(Collect(t, k)[j])
    decreases |t| - k
  {
    if k < |t| {
      CollectSorted(t, k + 1, rank);
      assert Collect(t, k) == AsSeq(t[k]) + Collect(t, k + 1);
    }
  }

  /** A step is in the plan exactly when its condition holds, with the
      parameter the function passes. */
  lemma PlanMembers(f: FilterDict, s: Step)
    ensures s in Plan(f) <==> Runs(f, s)
  {
    var t := Table(f);
    CollectMembers(t, 0, s);
    TableAtRank(f, s);
    TableRanked(f);
    if s in Plan(f) {
      var i :| 0 <= i < |t| && t[i] == Some(s);
      assert Rank(s) == i;
    }
  }

  /** The steps of the plan come in the fixed order rotate, brightness,
      contrast, saturation, sharpness, grayscale, invert, sepia, blur,
      emboss, contour, detail, edge enhance, posterize, solarize, each at
      most once. */
  lemma PlanOrder(f: FilterDict)
    ensures forall i, j :: 0 <= i < j < |Plan(f)| ==> Rank(Plan(f)[i]) < Rank(Plan(f)[j])
    ensures forall i, j :: 0 <= i < j < |Plan(f)| ==> Plan(f)[i] != Plan(f)[j]
  {
    TableRanked(f);
    CollectSorted(Table(f), 0, Rank);
  }

  /** No filters, no steps: the result is the image itself. */
  lemma EmptyFilters(b: Backend, img: Image, f: FilterDict)
    requires f == map[]
    ensures Plan(f) == []
    ensures ApplyFilters(b, img, f) == Ok(img)
  {
    if Plan(f) != [] {
      var s := Plan(f)[0];
      PlanMembers(f, s);
    }
  }

  /** Every key the function reads is absent or at its neutral value:
      rotation 0, the enhancer factors 1.0, blur at most 0 and every toggle
      false. */
  predicate Neutral(f: FilterDict)
  {
    && Get(f, "rotate", 0.0) == 0.0
    && Get(f, "brightness", 1.0) == 1.0 && Get(f, "contrast", 1.0) == 1.0
    && Get(f, "saturation", 1.0) == 1.0 && Get(f, "sharpness", 1.0) == 1.0
    && Get(f, "grayscale", 0.0) == 0.0 && Get(f, "invert", 0.0) == 0.0 && Get(f, "sepia", 0.0) == 0.0
    && Get(f, "blur", 0.0) <= 0.0
    && Get(f, "emboss", 0.0) == 0.0 && Get(f, "contour", 0.0) == 0.0
    && Get(f, "detail", 0.0) == 0.0 && Get(f, "edge_enhance", 0.0) == 0.0
    && Get(f, "posterize", 0.0) == 0.0 && Get(f, "solarize", 0.0) == 0.0
  }

  lemma {:induction false} CollectEmpty(t: seq<Option<Step>>, k: nat)
    requires k <= |t|
    ensures Collect(t, k) == [] <==> forall i :: k <= i < |t| ==> t[i].None?
    decreases |t| - k
  {
    if k < |t| {
      CollectEmpty(t, k + 1);
    }
  }

  /** The plan is empty, and the image comes back as it is, exactly when
      every key read is absent or neutral. */
  lemma NeutralFilters(b: Backend, img: Image, f: FilterDict)
    ensures Plan(f) == [] <==> Neutral(f)
    ensures Neutral(f) ==> ApplyFilters(b, img, f) == Ok(img)
  {
    var t := Table(f);
    CollectEmpty(t, 0);
    assert t[0] == StepAt(f, 0) && t[1] == StepAt(f, 1) && t[2] == StepAt(f, 2) && t[3] == StepAt(f, 3);
    assert t[4] == StepAt(f, 4) && t[5] == StepAt(f, 5) && t[6] == StepAt(f, 6) && t[7] == StepAt(f, 7);
    assert t[8] == StepAt(f, 8) && t[9] == StepAt(f, 9) && t[10] == StepAt(f, 10) && t[11] == StepAt(f, 11);
    assert t[12] == StepAt(f, 12) && t[13] == StepAt(f, 13) && t[14] == StepAt(f, 14);
  }

  /** The dict the editor sends for an untouched image: every slider at its
      start, every box unticked, rotation 0 and gamma (never read) at 1.0.
      It leaves the image as it is. */
  lemma EditorDefaults(b: Backend, img: Image)
    ensures var f := map["brightness" := 1.0, "contrast" := 1.0, "blur" := 0.0, "saturation" := 1.0,
                         "sharpness" := 1.0, "gamma" := 1.0, "grayscale" := 0.0, "sepia" := 0.0,
                         "invert" := 0.0, "emboss" := 0.0, "contour" := 0.0, "detail" := 0.0,
                         "edge_enhance" := 0.0, "rotate" := 0.0];
            Plan(f) == [] && ApplyFilters(b, img, f) == Ok(img)
  {
    var f := map["brightness" := 1.0, "contrast" := 1.0, "blur" := 0.0, "saturation" := 1.0,
                 "sharpness" := 1.0, "gamma" := 1.0, "grayscale" := 0.0, "sepia" := 0.0,
                 "invert" := 0.0, "emboss" := 0.0, "contour" := 0.0, "detail" := 0.0,
                 "edge_enhance" := 0.0, "rotate" := 0.0];
    assert Neutral(f);
    NeutralFilters(b, img, f);
  }

  /** A key the function never reads ("gamma", say) changes nothing. */
  lemma UnreadKeyIgnored(b: Backend, img: Image, f: FilterDict, key: string, v: real)
    requires key !in ReadKeys
    ensures Plan(f[key := v]) == Plan(f)
    ensures ApplyFilters(b, img, f[key := v]) == ApplyFilters(b, img, f)
  {
    forall k | 0 <= k < Places
      ensures Table(f[key := v])[k] == Table(f)[k]
    {
      assert StepAt(f[key := v], k) == StepAt(f, k);
    }
    assert Table(f[key := v]) == Table(f);
  }

  // ---------------------------------------------------------------------
  // Size, mode and the one error

  /** The places that keep the size and the mode: the enhancers (1 to 4)
      and the library filters (8 to 14). */
  predicate KeepsShape(k: nat)
  {
    1 <= k <= 4 || 8 <= k <= 14
  }

  lemma PlaceKeepsShape(b: Backend, f: FilterDict, k: nat, x: Image)
    requires k < Places && KeepsShape(k)
    ensures Place(b, f, k, x).Ok?
    ensures var y := Place(b, f, k, x).value; y.w == x.w && y.h == x.h && y.mode == x.mode
  {
  }

  lemma {:induction false} SectionKeepsShape(b: Backend, f: FilterDict, i: nat, k: nat, x: Image)
    requires (1 <= i <= k <= 5) || (8 <= i <= k <= Places)
    ensures Between(b, f, i, k, x).Ok?
    ensures var y := Between(b, f, i, k, x).value; y.w == x.w && y.h == x.h && y.mode == x.mode
    decreases k - i
  {
    if i < k {
      SectionKeepsShape(b, f, i, k - 1, x);
      PlaceKeepsShape(b, f, k - 1, Between(b, f, i, k - 1, x).value);
    }
  }

  /** The rotation is the only step that changes the size. */
  lemma RotationShape(b: Backend, f: FilterDict, x: Image)
    ensures Between(b, f, 0, 1, x).Ok?
    ensures var y := Between(b, f, 0, 1, x).value;
            y.mode == x.mode &&
            (y.w, y.h) == (if Truthy(Get(f, "rotate", 0.0))
                           then RotatedSize(b, -Get(f, "rotate", 0.0), x.w, x.h) else (x.w, x.h))
  {
    assert Between(b, f, 0, 1, x) == Place(b, f, 0, x);
  }

  /** Grayscale yields RGB, so sepia raises only on an image that is not
      RGB and was not grayscaled. */
  lemma PixelEffectsShape(b: Backend, f: FilterDict, x: Image)
    ensures Between(b, f, 5, 8, x).Err? <==>
              Truthy(Get(f, "sepia", 0.0)) && !Truthy(Get(f, "grayscale", 0.0)) && x.mode != RGB
    ensures Between(b, f, 5, 8, x).Ok? ==>
              var y := Between(b, f, 5, 8, x).value;
              y.w == x.w && y.h == x.h &&
              y.mode == (if Truthy(Get(f, "grayscale", 0.0)) || Truthy(Get(f, "sepia", 0.0)) then RGB else x.mode)
  {
    assert Between(b, f, 5, 6, x) == Place(b, f, 5, x);
  }

  /** The whole chain: it raises exactly when sepia meets an image that is
      not RGB; otherwise only the rotation changes the size, and grayscale
      or sepia make the image RGB. */
  lemma FilterOutcome(b: Backend, img: Image, f: FilterDict)
    ensures ApplyFilters(b, img, f).Err? <==>
              Truthy(Get(f, "sepia", 0.0)) && !Truthy(Get(f, "grayscale", 0.0)) && img.mode != RGB
    ensures ApplyFilters(b, img, f).Ok? ==>
              var out := ApplyFilters(b, img, f).value;
              (out.w, out.h) == (if Truthy(Get(f, "rotate", 0.0))
                                 then RotatedSize(b, -Get(f, "rotate", 0.0), img.w, img.h) else (img.w, img.h)) &&
              out.mode == (if Truthy(Get(f, "grayscale", 0.0)) || Truthy(Get(f, "sepia", 0.0)) then RGB else img.mode)
  {
    BetweenIsRun(b, f, 0, img);
    BetweenSplit(b, f, 0, 1, Places, img);
    RotationShape(b, f, img);
    var r := Between(b, f, 0, 1, img).value;
    BetweenSplit(b, f, 1, 5, Places, r);
    SectionKeepsShape(b, f, 1, 5, r);
    var e := Between(b, f, 1, 5, r).value;
    BetweenSplit(b, f, 5, 8, Places, e);
    PixelEffectsShape(b, f, e);
    if Between(b, f, 5, 8, e).Ok? {
      var t := Between(b, f, 5, 8, e).value;
      SectionKeepsShape(b, f, 8, Places, t);
    }
  }

  /** The clip pipeline converts to RGB first, so there the chain never
      raises and the image stays RGB. */
  lemma RgbNeverRaises(b: Backend, img: Image, f: FilterDict)
    requires img.mode == RGB
    ensures ApplyFilters(b, img, f).Ok? && ApplyFilters(b, img, f).value.mode == RGB
  {
    FilterOutcome(b, img, f);
  }

  // ---------------------------------------------------------------------
  // Pixel arithmetic

  /** Each sepia row dominates the next one entry by entry, so on a pixel
      with non-negative channels R' >= G' >= B'. */
  lemma SepiaOrder(r: int, g: int, b: int)
    requires 0 <= r && 0 <= g && 0 <= b
    ensures SepiaChannel(SepiaR, r, g, b) >= SepiaChannel(SepiaG, r, g, b) >= SepiaChannel(SepiaB, r, g, b)
  {
    var mr := SepiaR.r * r + SepiaR.g * g + SepiaR.b * b;
    var mg := SepiaG.r * r + SepiaG.g * g + SepiaG.b * b;
    var mb := SepiaB.r * r + SepiaB.g * g + SepiaB.b * b;
    assert mr >= mg >= mb;
    FloorMonotone(mg, mr);
    FloorMonotone(mb, mg);
  }

  lemma FloorMonotone(m: int, n: int)
    requires 0 <= m <= n
    ensures m / 1000 <= n / 1000
  {
    var q, p := m / 1000, n / 1000;
    assert m == 1000 * q + m % 1000;
    assert n == 1000 * p + n % 1000;
  }

  /** Black stays black; white becomes (255, 255, 238). */
  lemma SepiaBlackAndWhite()
    ensures SepiaPixel([0, 0, 0]) == [0, 0, 0]
    ensures SepiaPixel([255, 255, 255]) == [255, 255, 238]
  {
    assert Ch([255, 255, 255], 0) == 255 && Ch([255, 255, 255], 1) == 255 && Ch([255, 255, 255], 2) == 255;
    assert Ch([0, 0, 0], 0) == 0 && Ch([0, 0, 0], 1) == 0 && Ch([0, 0, 0], 2) == 0;
  }

  /** A grey level other than black comes out warm: red above blue. */
  lemma SepiaWarmsGray(l: int)
    requires 1 <= l <= 255
    ensures SepiaChannel(SepiaR, l, l, l) > SepiaChannel(SepiaB, l, l, l)
  {
    var mr, mb := 1351 * l, 937 * l;
    assert SepiaR.r * l + SepiaR.g * l + SepiaR.b * l == mr;
    assert SepiaB.r * l + SepiaB.g * l + SepiaB.b * l == mb;
    if mr >= 255000 {
      FloorGap(mb, 255000);
    } else if l <= 2 {
      assert l == 1 || l == 2;
    } else {
      FloorGap(mb, mr);
    }
  }

  /** Two numbers a thousand apart have different floors in thousandths. */
  lemma FloorGap(m: int, n: int)
    requires 0 <= m && m + 1000 <= n
    ensures m / 1000 < n / 1000
  {
    var q, p := m / 1000, n / 1000;
    assert m == 1000 * q + m % 1000;
    assert n == 1000 * p + n % 1000;
  }

  /** Inverting twice gives the pixel back. */
  lemma InvertAllTwice(p: Pixel)
    ensures InvertAll(InvertAll(p)) == p
  {
  }

  /** On RGBA the alpha band is kept and the mode stays RGBA; inverting
      twice gives the image back on every well-formed pixel, whatever the
      mode. */
  lemma InvertKeepsAlpha(img: Image, x: nat, y: nat)
    requires img.mode == RGBA
    ensures Inverted(img).mode == RGBA
    ensures Ch(Inverted(img).px(x, y), 3) == Ch(img.px(x, y), 3)
    ensures forall i :: 0 <= i < 3 ==> Ch(Inverted(img).px(x, y), i) == 255 - Ch(img.px(x, y), i)
  {
  }

  lemma InvertTwice(img: Image, x: nat, y: nat)
    requires |img.px(x, y)| == Channels(img.mode)
    ensures Inverted(Inverted(img)).mode == img.mode
    ensures Inverted(Inverted(img)).px(x, y) == img.px(x, y)
  {
    var p := img.px(x, y);
    if img.mode == RGBA {
      assert Inverted(Inverted(img)).px(x, y) == InvertKeepAlpha(InvertKeepAlpha(p));
      assert InvertKeepAlpha(InvertKeepAlpha(p)) == p;
    } else {
      InvertAllTwice(p);
    }
  }
}
