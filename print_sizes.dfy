/** The fixed catalog of photo print sizes and the orientation helpers over it
    (src/constants/printSizes.ts). Sizes are in centimetres, held as reals. */
module PrintSizes {

  /** One entry of the catalog. The inch fields are for display only. */
  datatype PrintSize = PrintSize(
    id: string,
    name: string,
    widthCm: real,
    heightCm: real,
    widthInches: real,
    heightInches: real)

  /** The print resolution used for the crop aspect computation. */
  const PrintDpi: int := 300

  /** The catalog, short side first, in the order the menus show it. */
  const Catalog: seq<PrintSize> := [
    PrintSize("9x13", "9 × 13", 9.0, 13.0, 3.54, 5.12),
    PrintSize("10x15", "10 × 15", 10.0, 15.0, 3.94, 5.91),
    PrintSize("11x16", "11 × 16", 11.0, 16.0, 4.33, 6.30),
    PrintSize("13x18", "13 × 18", 13.0, 18.0, 5.12, 7.09)
  ]

  /** The catalog's default entry, 10 × 15. */
  const DefaultPrintSize: PrintSize := Catalog[1]

  /** A size with positive sides, which every geometry computation needs. */
  predicate Measurable(size: PrintSize) {
    size.widthCm > 0.0 && size.heightCm > 0.0
  }

  /** Oriented print dimensions; `width`/`height` duplicate the cm fields as the source does. */
  datatype PrintDimensions = PrintDimensions(width: real, height: real, widthCm: real, heightCm: real)

  /** The size's sides as laid out in the given orientation: landscape puts the long side across. */
  function GetPrintDimensions(size: PrintSize, isLandscape: bool): (d: PrintDimensions)
    ensures d.width == d.widthCm && d.height == d.heightCm
    ensures !isLandscape ==> d.widthCm == size.widthCm && d.heightCm == size.heightCm
    ensures isLandscape ==> d.widthCm == size.heightCm && d.heightCm == size.widthCm
  {
    if isLandscape then
      PrintDimensions(size.heightCm, size.widthCm, size.heightCm, size.widthCm)
    else
      PrintDimensions(size.widthCm, size.heightCm, size.widthCm, size.heightCm)
  }

  /** A square size has no distinct orientation. */
  predicate IsSquareSize(size: PrintSize): (b: bool)
    ensures b <==> GetPrintDimensions(size, true) == GetPrintDimensions(size, false)
  {
    size.widthCm == size.heightCm
  }

  /** The landscape dimensions are the portrait ones with the axes swapped. */
  lemma LandscapeSwapsPortrait(size: PrintSize)
    ensures var p := GetPrintDimensions(size, false);
            GetPrintDimensions(size, true) == PrintDimensions(p.height, p.width, p.heightCm, p.widthCm)
  {
  }

  /** Orientation makes no difference exactly for square sizes. */
  lemma OrientationIrrelevantIffSquare(size: PrintSize)
    ensures IsSquareSize(size) <==> GetPrintDimensions(size, true) == GetPrintDimensions(size, false)
  {
  }

  /** The catalog holds the four sizes in order, with distinct ids, each taller than wide. */
  lemma CatalogShape()
    ensures |Catalog| == 4
    ensures Catalog[0].id == "9x13" && Catalog[1].id == "10x15"
    ensures Catalog[2].id == "11x16" && Catalog[3].id == "13x18"
    ensures forall i, j :: 0 <= i < j < |Catalog| ==> Catalog[i].id != Catalog[j].id
    ensures forall i :: 0 <= i < |Catalog| ==> 0.0 < Catalog[i].widthCm < Catalog[i].heightCm
  {
  }

  /** No catalog entry is square, so every entry can be turned. */
  lemma CatalogHasNoSquare(i: int)
    requires 0 <= i < |Catalog|
    ensures Measurable(Catalog[i]) && !IsSquareSize(Catalog[i])
  {
    CatalogShape();
  }

  /** The default is the 10 × 15 entry at index 1, and prints are computed at 300 DPI. */
  lemma DefaultsAreAsDocumented()
    ensures DefaultPrintSize == Catalog[1]
    ensures DefaultPrintSize.widthCm == 10.0 && DefaultPrintSize.heightCm == 15.0
    ensures PrintDpi == 300
  {
  }
}
