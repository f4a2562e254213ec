/** The geometry half of src/stores/editorStore.ts: the centred crop and the
    print-policy transforms that `setLayerPrintSize`, `toggleLayerOrientation`,
    `setLayerPrintMode` and `setLayerCrop` apply to one layer. */
module StoreGeometry {
  import opened PrintSizes
  import opened CanvasScale
  import opened EditorTypes

  const FullCrop: Crop := Crop(0.0, 0.0, 1.0, 1.0)

  /** The largest side an unconstrained layer is shown at, in canvas pixels. */
  const MaxFreeDisplay: real := 200.0

  /** The centred crop of an image relatively wider than the target: full height. */
  function WiderCrop(imageWidth: real, imageHeight: real, targetWidth: real, targetHeight: real): Crop
    requires imageWidth > 0.0 && imageHeight > 0.0 && targetWidth > 0.0 && targetHeight > 0.0
  {
    var cropWidth := imageHeight * (targetWidth / targetHeight);
    Crop((imageWidth - cropWidth) / 2.0 / imageWidth, 0.0, cropWidth / imageWidth, 1.0)
  }

  /** The centred crop of an image relatively taller than the target: full width. */
  function TallerCrop(imageWidth: real, imageHeight: real, targetWidth: real, targetHeight: real): Crop
    requires imageWidth > 0.0 && imageHeight > 0.0 && targetWidth > 0.0 && targetHeight > 0.0
  {
    var cropHeight := imageWidth / (targetWidth / targetHeight);
    Crop(0.0, (imageHeight - cropHeight) / 2.0 / imageHeight, 1.0, cropHeight / imageHeight)
  }

  /** `calculateCenteredCrop`: the largest centred sub-rectangle of the image whose
      pixel aspect is the target's, normalised to the image. */
  function CenteredCrop(imageWidth: real, imageHeight: real, targetWidth: real, targetHeight: real): (c: Crop)
    requires imageWidth > 0.0 && imageHeight > 0.0 && targetWidth > 0.0 && targetHeight > 0.0
    ensures 0.0 <= c.x && 0.0 <= c.y && 0.0 < c.width && 0.0 < c.height
    ensures c.x + c.width <= 1.0 && c.y + c.height <= 1.0
    ensures c.x == (1.0 - c.width) / 2.0 && c.y == (1.0 - c.height) / 2.0
    ensures c.width == 1.0 || c.height == 1.0
    ensures c.width * imageWidth * targetHeight == c.height * imageHeight * targetWidth
  {
    if imageWidth / imageHeight > targetWidth / targetHeight then
      WiderCropFacts(imageWidth, imageHeight, targetWidth, targetHeight);
      WiderCrop(imageWidth, imageHeight, targetWidth, targetHeight)
    else
      TallerCropFacts(imageWidth, imageHeight, targetWidth, targetHeight);
      TallerCrop(imageWidth, imageHeight, targetWidth, targetHeight)
  }

  lemma WiderCropFacts(iw: real, ih: real, tw: real, th: real)
    requires iw > 0.0 && ih > 0.0 && tw > 0.0 && th > 0.0
    requires iw / ih > tw / th
    ensures var c := WiderCrop(iw, ih, tw, th);
      && 0.0 <= c.x && c.y == 0.0 && 0.0 < c.width && c.height == 1.0
      && c.x + c.width <= 1.0 && c.x == (1.0 - c.width) / 2.0
      && c.width * iw * th == c.height * ih * tw
  {
    var a := tw / th;
    var cw := ih * a;
    assert a * th == tw;
    assert iw > ih * a by {
      assert iw / ih > a;
      assert (iw / ih) * ih == iw;
    }
    var c := WiderCrop(iw, ih, tw, th);
    assert c == Crop((iw - cw) / 2.0 / iw, 0.0, cw / iw, 1.0);
    HalfGap(cw, iw);
    assert c.x == (1.0 - c.width) / 2.0;
  }

  lemma TallerCropFacts(iw: real, ih: real, tw: real, th: real)
    requires iw > 0.0 && ih > 0.0 && tw > 0.0 && th > 0.0
    requires iw / ih <= tw / th
    ensures var c := TallerCrop(iw, ih, tw, th);
      && c.x == 0.0 && 0.0 <= c.y && c.width == 1.0 && 0.0 < c.height
      && c.y + c.height <= 1.0 && c.y == (1.0 - c.height) / 2.0
      && c.width * iw * th == c.height * ih * tw
  {
    var a := tw / th;
    var ch := iw / a;
    assert a * th == tw;
    assert ch * a == iw;
    assert ch <= ih by {
      assert (iw / ih) * ih == iw;
      assert iw <= a * ih;
    }
    HalfGap(ch, ih);
    assert ch * tw == iw * th by {
      assert ch * tw == ch * (a * th) == (ch * a) * th;
    }
  }

  /** The normalised offset that centres a span of `a` in a span of `b`. */
  lemma HalfGap(a: real, b: real)
    requires b > 0.0
    ensures (b - a) / 2.0 / b == (1.0 - a / b) / 2.0
  {
    var q := a / b;
    var r := (1.0 - q) / 2.0;
    assert q * b == a;
    assert (b - a) / 2.0 == r * b;
    DivCancel(r, b);
  }

  lemma DivCancel(x: real, b: real)
    requires b != 0.0
    ensures (x * b) / b == x
  {
  }

  /** At equal aspects both branches give the whole image: the tie is not a discontinuity. */
  lemma CenteredCropContinuousAtTie(iw: real, ih: real, tw: real, th: real)
    requires iw > 0.0 && ih > 0.0 && tw > 0.0 && th > 0.0
    requires iw * th == ih * tw
    ensures WiderCrop(iw, ih, tw, th) == FullCrop
    ensures TallerCrop(iw, ih, tw, th) == FullCrop
    ensures CenteredCrop(iw, ih, tw, th) == FullCrop
  {
    var a := tw / th;
    assert a * th == tw;
    assert ih * a == iw by {
      assert ih * a * th == ih * tw == iw * th;
    }
    assert iw / a == ih by {
      assert ih * a == iw;
    }
    assert (ih - iw / a) / 2.0 / ih == 0.0;
    assert iw / a / ih == 1.0;
  }

  /** The geometry fields a policy writes onto a layer: crop and display size. */
  datatype Geometry = Geometry(crop: Crop, displayWidth: real, displayHeight: real)

  /** The centred crop depends on the target only through its aspect. */
  lemma CenteredCropScaleInvariant(iw: real, ih: real, tw: real, th: real, k: real)
    requires iw > 0.0 && ih > 0.0 && tw > 0.0 && th > 0.0 && k > 0.0
    ensures CenteredCrop(iw, ih, tw * k, th * k) == CenteredCrop(iw, ih, tw, th)
  {
    assert (tw * k) / (th * k) == tw / th;
  }

  /** The 300-DPI pixel size of the oriented print, the target of the classic crop. */
  function PrintTargetPixels(size: PrintSize, isLandscape: bool): (t: (real, real))
    requires Measurable(size)
    ensures t.0 > 0.0 && t.1 > 0.0
    ensures var d := GetPrintDimensions(size, isLandscape);
      t == (d.widthCm / 2.54 * 300.0, d.heightCm / 2.54 * 300.0)
  {
    var d := GetPrintDimensions(size, isLandscape);
    ((d.widthCm / 2.54) * (PrintDpi as real), (d.heightCm / 2.54) * (PrintDpi as real))
  }

  /** Classic policy: the print's canvas footprint, and the image cropped to the print aspect. */
  function ClassicGeometry(imageWidth: real, imageHeight: real, size: PrintSize, isLandscape: bool): (g: Geometry)
    requires imageWidth > 0.0 && imageHeight > 0.0 && Measurable(size)
    ensures var dims := GetCanvasDimensions(size.widthCm, size.heightCm, isLandscape);
      g.displayWidth == dims.width && g.displayHeight == dims.height
    ensures g.displayWidth > 0.0 && g.displayHeight > 0.0
    ensures 0.0 <= g.crop.x && 0.0 <= g.crop.y && 0.0 < g.crop.width && 0.0 < g.crop.height
    ensures g.crop.x + g.crop.width <= 1.0 && g.crop.y + g.crop.height <= 1.0
    ensures g.crop.width * imageWidth * g.displayHeight == g.crop.height * imageHeight * g.displayWidth
    ensures var t := PrintTargetPixels(size, isLandscape); g.crop == CenteredCrop(imageWidth, imageHeight, t.0, t.1)
  {
    var t := PrintTargetPixels(size, isLandscape);
    var dims := GetCanvasDimensions(size.widthCm, size.heightCm, isLandscape);
    var c := CenteredCrop(imageWidth, imageHeight, t.0, t.1);
    TargetAspectIsCanvasAspect(size, isLandscape, c.width * imageWidth, c.height * imageHeight);
    Geometry(c, dims.width, dims.height)
  }

  /** Any two lengths in the 300-DPI target's proportion are in the canvas footprint's proportion. */
  lemma TargetAspectIsCanvasAspect(size: PrintSize, isLandscape: bool, w: real, h: real)
    requires Measurable(size)
    requires w * PrintTargetPixels(size, isLandscape).1 == h * PrintTargetPixels(size, isLandscape).0
    ensures var dims := GetCanvasDimensions(size.widthCm, size.heightCm, isLandscape);
      w * dims.height == h * dims.width
  {
    var d := GetPrintDimensions(size, isLandscape);
    var k := (PrintDpi as real) / 2.54;
    assert PrintTargetPixels(size, isLandscape) == (d.widthCm * k, d.heightCm * k);
    assert w * d.heightCm * k == h * d.widthCm * k;
    assert w * d.heightCm == h * d.widthCm;
    assert w * (d.heightCm * 12.0) == h * (d.widthCm * 12.0);
  }

  /** Original policy: nothing cropped, the fixed side pinned to the print's canvas side,
      the other side following the image's aspect. */
  function OriginalGeometry(imageWidth: real, imageHeight: real, size: PrintSize, isLandscape: bool, side: FixedSide): (g: Geometry)
    requires imageWidth > 0.0 && imageHeight > 0.0 && Measurable(size)
    ensures g.crop == FullCrop
    ensures var dims := GetCanvasDimensions(size.widthCm, size.heightCm, isLandscape);
      if side == Width then g.displayWidth == dims.width else g.displayHeight == dims.height
    ensures g.displayWidth > 0.0 && g.displayHeight > 0.0
    ensures g.displayWidth * imageHeight == g.displayHeight * imageWidth
  {
    var imageAspect := imageWidth / imageHeight;
    var dims := GetCanvasDimensions(size.widthCm, size.heightCm, isLandscape);
    assert imageAspect * imageHeight == imageWidth;
    if side == Width then
      var h := dims.width / imageAspect;
      assert h * imageAspect == dims.width;
      Geometry(FullCrop, dims.width, h)
    else
      Geometry(FullCrop, dims.height * imageAspect, dims.height)
  }

  function Min(a: real, b: real): real {
    if a <= b then a else b
  }

  /** Unconstrained policy: nothing cropped, the natural size scaled down (never up) so that
      neither side exceeds 200 canvas pixels. */
  function FreeGeometry(imageWidth: real, imageHeight: real): (g: Geometry)
    requires imageWidth > 0.0 && imageHeight > 0.0
    ensures g.crop == FullCrop
    ensures 0.0 < g.displayWidth <= MaxFreeDisplay && 0.0 < g.displayHeight <= MaxFreeDisplay
    ensures g.displayWidth <= imageWidth && g.displayHeight <= imageHeight
    ensures g.displayWidth * imageHeight == g.displayHeight * imageWidth
    ensures g.displayWidth == MaxFreeDisplay || g.displayHeight == MaxFreeDisplay
         || (g.displayWidth == imageWidth && g.displayHeight == imageHeight)
  {
    var scale := Min(Min(MaxFreeDisplay / imageWidth, MaxFreeDisplay / imageHeight), 1.0);
    FreeScaleFacts(imageWidth, imageHeight, scale);
    Geometry(FullCrop, imageWidth * scale, imageHeight * scale)
  }

  lemma FreeScaleFacts(w: real, h: real, scale: real)
    requires w > 0.0 && h > 0.0
    requires scale == Min(Min(MaxFreeDisplay / w, MaxFreeDisplay / h), 1.0)
    ensures 0.0 < w * scale <= MaxFreeDisplay && 0.0 < h * scale <= MaxFreeDisplay
    ensures w * scale <= w && h * scale <= h
    ensures w * scale == MaxFreeDisplay || h * scale == MaxFreeDisplay || scale == 1.0
  {
    assert (MaxFreeDisplay / w) * w == MaxFreeDisplay;
    assert (MaxFreeDisplay / h) * h == MaxFreeDisplay;
    assert scale <= MaxFreeDisplay / w && scale <= MaxFreeDisplay / h && scale <= 1.0;
    assert w * scale <= w * (MaxFreeDisplay / w);
    assert h * scale <= h * (MaxFreeDisplay / h);
  }

  /** The sizing policy the flat fields stand for, as a sum type. */
  datatype Policy =
    | Unconstrained
    | ClassicFit(size: PrintSize, isLandscape: bool)
    | OriginalFit(size: PrintSize, isLandscape: bool, side: FixedSide)

  /** Reads the policy off the flat fields the way the store's actions branch on them:
      original mode without a fixed side is treated as classic. */
  function PolicyOf(l: Layer): Policy {
    match l.printSize
    case None => Unconstrained
    case Some(size) =>
      if l.printMode == Original && l.fixedSide.Some? then OriginalFit(size, l.isLandscape, l.fixedSide.value)
      else ClassicFit(size, l.isLandscape)
  }

  /** The constrained policy a mode selects. */
  function ModePolicy(size: PrintSize, isLandscape: bool, mode: PrintMode, side: FixedSide): Policy {
    if mode == Classic then ClassicFit(size, isLandscape) else OriginalFit(size, isLandscape, side)
  }

  predicate PolicyMeasurable(p: Policy) {
    !p.Unconstrained? ==> Measurable(p.size)
  }

  /** The geometry a policy prescribes for an image of the given natural size. */
  function Derive(p: Policy, imageWidth: real, imageHeight: real): Geometry
    requires imageWidth > 0.0 && imageHeight > 0.0 && PolicyMeasurable(p)
  {
    match p
    case Unconstrained => FreeGeometry(imageWidth, imageHeight)
    case ClassicFit(size, isLandscape) => ClassicGeometry(imageWidth, imageHeight, size, isLandscape)
    case OriginalFit(size, isLandscape, side) => OriginalGeometry(imageWidth, imageHeight, size, isLandscape, side)
  }

  function GeometryOf(l: Layer): Geometry {
    Geometry(Crop(l.cropX, l.cropY, l.cropWidth, l.cropHeight), l.displayWidth, l.displayHeight)
  }

  /** The flat fields hold no leftovers of another policy: the values the store's actions write. */
  predicate FlagsCanonical(l: Layer) {
    match PolicyOf(l)
    case Unconstrained => !l.isLandscape && l.printMode == Classic && l.fixedSide.None?
    case ClassicFit(_, _) => l.printMode == Classic && l.fixedSide.None?
    case OriginalFit(_, _, _) => true
  }

  /** The layer's crop and display size are exactly what its policy prescribes. */
  predicate Consistent(l: Layer) {
    && WellSized(l)
    && FlagsCanonical(l)
    && GeometryOf(l) == Derive(PolicyOf(l), l.originalWidth, l.originalHeight)
  }

  function WithGeometry(l: Layer, g: Geometry): (r: Layer)
    ensures GeometryOf(r) == g
    ensures SamePlacement(l, r) && r.printSize == l.printSize && r.isLandscape == l.isLandscape
    ensures r.printMode == l.printMode && r.fixedSide == l.fixedSide
  {
    l.(cropX := g.crop.x, cropY := g.crop.y, cropWidth := g.crop.width, cropHeight := g.crop.height,
       displayWidth := g.displayWidth, displayHeight := g.displayHeight)
  }

  /** Nothing but the print policy, crop and display size differ between the two layers. */
  predicate SamePlacement(a: Layer, b: Layer) {
    && a.id == b.id && a.name == b.name && a.blobUrl == b.blobUrl
    && a.originalWidth == b.originalWidth && a.originalHeight == b.originalHeight
    && a.thumbnail == b.thumbnail
    && a.x == b.x && a.y == b.y && a.rotation == b.rotation
    && a.zIndex == b.zIndex && a.visible == b.visible && a.locked == b.locked
  }

  /** A consistent layer has its crop inside the image and a positive display size. */
  lemma ConsistentIsDrawable(l: Layer)
    requires Consistent(l)
    ensures CropInBounds(l)
    ensures l.displayWidth > 0.0 && l.displayHeight > 0.0
  {
  }

  /** `setLayerPrintSize` on one layer. `mode` and `fixedSide` are what the caller passes;
      the store does not read the layer's current mode. */
  function SetPrintSizeOn(l: Layer, size: Option<PrintSize>, isLandscape: bool, mode: PrintMode, fixedSide: FixedSide): (r: Layer)
    requires WellSized(l.(printSize := size))
    ensures SamePlacement(l, r)
    ensures Consistent(r)
    ensures size.None? ==> PolicyOf(r) == Unconstrained
    ensures size.Some? ==> PolicyOf(r) == ModePolicy(size.value, isLandscape, mode, fixedSide)
  {
    match size
    case None =>
      WithGeometry(l.(printSize := None, isLandscape := false, printMode := Classic, fixedSide := None),
                   FreeGeometry(l.originalWidth, l.originalHeight))
    case Some(s) =>
      if mode == Classic then
        WithGeometry(l.(printSize := size, isLandscape := isLandscape, printMode := Classic, fixedSide := None),
                     ClassicGeometry(l.originalWidth, l.originalHeight, s, isLandscape))
      else
        WithGeometry(l.(printSize := size, isLandscape := isLandscape, printMode := Original, fixedSide := Some(fixedSide)),
                     OriginalGeometry(l.originalWidth, l.originalHeight, s, isLandscape, fixedSide))
  }

  function Flip(side: FixedSide): FixedSide {
    if side == Width then Height else Width
  }

  /** The policy turned a quarter: orientation flipped, and in original mode the fixed side too. */
  function Turned(p: Policy): Policy {
    match p
    case Unconstrained => Unconstrained
    case ClassicFit(size, isLandscape) =>
      if IsSquareSize(size) then p else ClassicFit(size, !isLandscape)
    case OriginalFit(size, isLandscape, side) =>
      if IsSquareSize(size) then p else OriginalFit(size, !isLandscape, Flip(side))
  }

  /** `toggleLayerOrientation` on one layer. Original mode keeps the crop and rewrites only the
      display size; otherwise crop and display are recomputed and mode and fixed side left as they are. */
  function ToggledOrientation(l: Layer): (r: Layer)
    requires WellSized(l)
    ensures SamePlacement(l, r) && r.printSize == l.printSize && r.printMode == l.printMode
    ensures l.printSize.None? || IsSquareSize(l.printSize.value) ==> r == l
    ensures l.printSize.Some? && !IsSquareSize(l.printSize.value) ==> r.isLandscape == !l.isLandscape
    ensures PolicyOf(r) == Turned(PolicyOf(l))
    ensures match PolicyOf(l)
      case ClassicFit(size, isLandscape) =>
        !IsSquareSize(size) ==>
          r.fixedSide == l.fixedSide
          && GeometryOf(r) == ClassicGeometry(l.originalWidth, l.originalHeight, size, !isLandscape)
      case OriginalFit(size, isLandscape, side) =>
        !IsSquareSize(size) ==>
          var g := OriginalGeometry(l.originalWidth, l.originalHeight, size, !isLandscape, Flip(side));
          GeometryOf(r) == Geometry(GeometryOf(l).crop, g.displayWidth, g.displayHeight)
      case Unconstrained => true
  {
    match l.printSize
    case None => l
    case Some(size) =>
      if IsSquareSize(size) then l
      else
        var newIsLandscape := !l.isLandscape;
        if l.printMode == Original && l.fixedSide.Some? then
          var newSide := Flip(l.fixedSide.value);
          var g := OriginalGeometry(l.originalWidth, l.originalHeight, size, newIsLandscape, newSide);
          l.(isLandscape := newIsLandscape, fixedSide := Some(newSide),
             displayWidth := g.displayWidth, displayHeight := g.displayHeight)
        else
          WithGeometry(l.(isLandscape := newIsLandscape),
                       ClassicGeometry(l.originalWidth, l.originalHeight, size, newIsLandscape))
  }

  /** `setLayerPrintMode` on one layer: a no-op without a print size; otherwise the geometry of
      the requested mode for the layer's current size and orientation. */
  function WithPrintMode(l: Layer, mode: PrintMode, fixedSide: FixedSide): (r: Layer)
    requires WellSized(l)
    ensures SamePlacement(l, r) && r.printSize == l.printSize && r.isLandscape == l.isLandscape
    ensures l.printSize.None? ==> r == l
    ensures l.printSize.Some? ==> Consistent(r) && r.printMode == mode
    ensures l.printSize.Some? ==> PolicyOf(r) == ModePolicy(l.printSize.value, l.isLandscape, mode, fixedSide)
  {
    match l.printSize
    case None => l
    case Some(size) =>
      if mode == Classic then
        var r := WithGeometry(l.(printMode := Classic, fixedSide := None),
                              ClassicGeometry(l.originalWidth, l.originalHeight, size, l.isLandscape));
        assert PolicyOf(r) == ClassicFit(size, l.isLandscape);
        r
      else
        var r := WithGeometry(l.(printMode := Original, fixedSide := Some(fixedSide)),
                              OriginalGeometry(l.originalWidth, l.originalHeight, size, l.isLandscape, fixedSide));
        assert PolicyOf(r) == OriginalFit(size, l.isLandscape, fixedSide);
        r
  }

  /** `setLayerCrop` on one layer: the four crop fields, unchecked. */
  function WithCrop(l: Layer, crop: Crop): (r: Layer)
    ensures SamePlacement(l, r) && r.printSize == l.printSize && r.printMode == l.printMode
    ensures r.isLandscape == l.isLandscape && r.fixedSide == l.fixedSide
    ensures GeometryOf(r) == Geometry(crop, l.displayWidth, l.displayHeight)
  {
    l.(cropX := crop.x, cropY := crop.y, cropWidth := crop.width, cropHeight := crop.height)
  }

  /** Turning the policy twice gives it back. */
  lemma TurnedTwice(p: Policy)
    ensures Turned(Turned(p)) == p
  {
  }

  /** Clearing the print size: full crop, portrait, classic, no fixed side, and a display
      that keeps the image aspect, is never larger than the image and fits in 200 × 200. */
  lemma ClearedPrintSize(l: Layer, isLandscape: bool, mode: PrintMode, fixedSide: FixedSide)
    requires WellSized(l.(printSize := None))
    ensures var r := SetPrintSizeOn(l, None, isLandscape, mode, fixedSide);
      && r.printSize.None? && !r.isLandscape && r.printMode == Classic && r.fixedSide.None?
      && r.cropX == 0.0 && r.cropY == 0.0 && r.cropWidth == 1.0 && r.cropHeight == 1.0
      && r.displayWidth <= MaxFreeDisplay && r.displayHeight <= MaxFreeDisplay
      && r.displayWidth <= l.originalWidth && r.displayHeight <= l.originalHeight
      && r.displayWidth * l.originalHeight == r.displayHeight * l.originalWidth
  {
    var r := SetPrintSizeOn(l, None, isLandscape, mode, fixedSide);
    assert GeometryOf(r) == FreeGeometry(l.originalWidth, l.originalHeight);
  }

  /** Toggling orientation keeps a consistent layer consistent. */
  lemma ToggleKeepsConsistent(l: Layer)
    requires Consistent(l)
    ensures Consistent(ToggledOrientation(l))
  {
  }

  /** Toggling orientation twice restores a consistent layer exactly, in both modes. */
  lemma ToggleTwiceRestores(l: Layer)
    requires Consistent(l)
    ensures ToggledOrientation(ToggledOrientation(l)) == l
  {
    var t := ToggledOrientation(l);
    match l.printSize
    case None =>
    case Some(size) =>
      if !IsSquareSize(size) {
        if l.printMode == Original && l.fixedSide.Some? {
          assert t.printMode == Original && t.fixedSide == Some(Flip(l.fixedSide.value));
          assert Flip(Flip(l.fixedSide.value)) == l.fixedSide.value;
        } else {
          assert t.printMode == Classic && t.fixedSide.None?;
          assert GeometryOf(l) == ClassicGeometry(l.originalWidth, l.originalHeight, size, l.isLandscape);
        }
      }
  }

  /** A classic toggle recomputes crop and display from scratch, so it leaves any well-sized
      classic layer consistent, whatever its crop was before. */
  lemma ClassicToggleMakesConsistent(l: Layer)
    requires WellSized(l) && PolicyOf(l).ClassicFit? && l.printMode == Classic && l.fixedSide.None?
    requires !IsSquareSize(l.printSize.value)
    ensures Consistent(ToggledOrientation(l))
  {
  }

  /** Two toggles bring a classic layer back to the print's footprint in its orientation: the
      display is restored for every classic layer displayed at that footprint. */
  lemma ClassicToggleTwiceRestoresDisplay(l: Layer)
    requires WellSized(l) && PolicyOf(l).ClassicFit?
    requires var dims := GetCanvasDimensions(l.printSize.value.widthCm, l.printSize.value.heightCm, l.isLandscape);
      l.displayWidth == dims.width && l.displayHeight == dims.height
    ensures var t := ToggledOrientation(ToggledOrientation(l));
      t.displayWidth == l.displayWidth && t.displayHeight == l.displayHeight && t.isLandscape == l.isLandscape
  {
    var size := l.printSize.value;
    if !IsSquareSize(size) {
      var t := ToggledOrientation(l);
      assert PolicyOf(t) == ClassicFit(size, !l.isLandscape);
    }
  }

  /** In original mode a toggle pins the same physical edge: the pinned display length is unchanged. */
  lemma OriginalTogglePinsSameEdge(l: Layer)
    requires Consistent(l) && l.printMode == Original && l.fixedSide.Some?
    requires l.printSize.Some? && !IsSquareSize(l.printSize.value)
    ensures var t := ToggledOrientation(l);
      if l.fixedSide.value == Width then t.displayHeight == l.displayWidth
      else t.displayWidth == l.displayHeight
  {
  }

  /** Switching a consistent original-mode layer to classic and back with the same fixed side
      restores it exactly. */
  lemma ModeRoundTrip(l: Layer, anySide: FixedSide)
    requires Consistent(l) && PolicyOf(l).OriginalFit?
    ensures WithPrintMode(WithPrintMode(l, Classic, anySide), Original, l.fixedSide.value) == l
  {
    var c := WithPrintMode(l, Classic, anySide);
    assert c.printSize == l.printSize && c.isLandscape == l.isLandscape;
  }

  /** Re-applying a mode to a layer already consistent in that mode changes nothing. */
  lemma ModeReapplyIsIdentity(l: Layer, side: FixedSide)
    requires Consistent(l) && l.printSize.Some?
    requires PolicyOf(l) == ModePolicy(l.printSize.value, l.isLandscape, l.printMode, side)
    ensures WithPrintMode(l, l.printMode, side) == l
  {
  }
}
