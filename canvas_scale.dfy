/** Centimetre to canvas-pixel conversion (src/constants/canvasScale.ts). */
module CanvasScale {

  /** Canvas pixels per centimetre. */
  const CanvasPpcm: real := 12.0

  /** Canvas pixels back to centimetres. */
  function CanvasPixelsToCm(px: real): (cm: real)
    ensures cm > 0.0 <==> px > 0.0
  {
    px / CanvasPpcm
  }

  /** Centimetres to canvas pixels; undone by `CanvasPixelsToCm`. */
  function CmToCanvasPixels(cm: real): (px: real)
    ensures CanvasPixelsToCm(px) == cm
    ensures px > 0.0 <==> cm > 0.0
  {
    cm * CanvasPpcm
  }

  /** The conversions are inverse in the other direction too. */
  lemma PixelsRoundTrip(px: real)
    ensures CmToCanvasPixels(CanvasPixelsToCm(px)) == px
  {
  }

  /** Conversion is strictly monotone, so it keeps the order of lengths. */
  lemma CmToCanvasPixelsMonotone(a: real, b: real)
    ensures a < b <==> CmToCanvasPixels(a) < CmToCanvasPixels(b)
  {
  }

  datatype CanvasDimensions = CanvasDimensions(width: real, height: real)

  /** On-canvas footprint of a print of `widthCm` × `heightCm` in the given orientation. */
  function GetCanvasDimensions(widthCm: real, heightCm: real, isLandscape: bool): (d: CanvasDimensions)
    ensures widthCm > 0.0 && heightCm > 0.0 ==> d.width > 0.0 && d.height > 0.0
    ensures !isLandscape ==> d.width * heightCm == d.height * widthCm
    ensures isLandscape ==> d.width * widthCm == d.height * heightCm
  {
    if isLandscape then
      CanvasDimensions(CmToCanvasPixels(heightCm), CmToCanvasPixels(widthCm))
    else
      CanvasDimensions(CmToCanvasPixels(widthCm), CmToCanvasPixels(heightCm))
  }

  /** Portrait is the plain conversion of each side. */
  lemma PortraitIsConverted(widthCm: real, heightCm: real)
    ensures GetCanvasDimensions(widthCm, heightCm, false)
         == CanvasDimensions(12.0 * widthCm, 12.0 * heightCm)
  {
  }

  /** Landscape is portrait with width and height swapped. */
  lemma LandscapeSwapsPortrait(widthCm: real, heightCm: real)
    ensures var p := GetCanvasDimensions(widthCm, heightCm, false);
            GetCanvasDimensions(widthCm, heightCm, true) == CanvasDimensions(p.height, p.width)
  {
  }

  /** A 9 × 13 print in portrait is 108 × 156 canvas pixels. */
  lemma NineByThirteenPortrait()
    ensures GetCanvasDimensions(9.0, 13.0, false) == CanvasDimensions(108.0, 156.0)
  {
  }
}
