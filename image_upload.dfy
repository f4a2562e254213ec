/** The arithmetic and ordering of src/hooks/useImageUpload.ts: the HEIC test, the downsampling
    target, the default layer built for the i-th file, and the order the batch is added in.
    Decoding, conversion and drawing happen outside the model: a file arrives here as the
    decoded image they produce, or as a failure. */
module ImageUpload {
  import opened PrintSizes
  import opened CanvasScale
  import opened EditorTypes
  import opened StoreGeometry
  import opened LayerStack
  import opened Store

  const MaxConcurrentUploads: nat := 3
  const MaxImageDimension: real := 2000.0

  // ---------------------------------------------------------------- HEIC detection

  function LowerChar(c: char): char {
    if 'A' <= c <= 'Z' then (c as int + 32) as char else c
  }

  /** ASCII lower-casing, character by character. */
  function ToLower(s: string): (r: string)
    ensures |r| == |s| && forall i :: 0 <= i < |s| ==> r[i] == LowerChar(s[i])
  {
    if |s| == 0 then "" else [LowerChar(s[0])] + ToLower(s[1..])
  }

  predicate EndsWith(s: string, suffix: string) {
    |suffix| <= |s| && s[|s| - |suffix|..] == suffix
  }

  const HeicMimeTypes: set<string> := {"image/heic", "image/heif"}
  const HeicExtensions: set<string> := {".heic", ".heif"}

  /** `isHeicFile`: by MIME type, or by a .heic/.heif name in any letter case. */
  predicate IsHeicFile(fileType: string, fileName: string): (b: bool)
    ensures b <==> fileType in HeicMimeTypes || exists ext :: ext in HeicExtensions && EndsWith(ToLower(fileName), ext)
  {
    || fileType == "image/heic"
    || fileType == "image/heif"
    || EndsWith(ToLower(fileName), ".heic")
    || EndsWith(ToLower(fileName), ".heif")
  }

  /** Lower-casing twice is lower-casing once. */
  lemma ToLowerIdempotent(s: string)
    ensures ToLower(ToLower(s)) == ToLower(s)
  {
    forall i | 0 <= i < |s| ensures ToLower(ToLower(s))[i] == ToLower(s)[i] {
      assert LowerChar(LowerChar(s[i])) == LowerChar(s[i]);
    }
  }

  /** The name test ignores letter case: a name and its lower-cased form are classified alike. */
  lemma HeicIgnoresNameCase(fileType: string, fileName: string)
    ensures IsHeicFile(fileType, ToLower(fileName)) == IsHeicFile(fileType, fileName)
  {
    ToLowerIdempotent(fileName);
  }

  /** An upper-case extension is detected without a MIME type. */
  lemma UpperCaseExtensionIsHeic()
    ensures IsHeicFile("", "IMG.HEIC")
  {
    var lower := ToLower("IMG.HEIC");
    assert lower[3] == '.' && lower[4] == 'h' && lower[5] == 'e' && lower[6] == 'i' && lower[7] == 'c';
    assert lower[3..] == ".heic";
  }

  /** A JPEG is not taken for HEIC. */
  lemma JpegIsNotHeic()
    ensures !IsHeicFile("image/jpeg", "a.jpg")
  {
    var lower := ToLower("a.jpg");
    assert lower[4] == LowerChar('g') == 'g';
  }

  // ---------------------------------------------------------------- downsampling

  datatype Downsample = Keep | Resize(width: real, height: real)

  /** The size `downsampleImage` redraws an image at, before rounding to whole pixels:
      kept when both sides are at most 2000, otherwise scaled by min(2000/w, 2000/h). */
  function DownsampleTarget(naturalWidth: real, naturalHeight: real): (d: Downsample)
    requires naturalWidth > 0.0 && naturalHeight > 0.0
    ensures d.Keep? <==> naturalWidth <= MaxImageDimension && naturalHeight <= MaxImageDimension
    ensures d.Resize? ==>
      && 0.0 < d.width <= MaxImageDimension && 0.0 < d.height <= MaxImageDimension
      && (d.width == MaxImageDimension || d.height == MaxImageDimension)
      && d.width < naturalWidth && d.height < naturalHeight
      && d.width * naturalHeight == d.height * naturalWidth
  {
    if naturalWidth <= MaxImageDimension && naturalHeight <= MaxImageDimension then Keep
    else
      var scale := Min(MaxImageDimension / naturalWidth, MaxImageDimension / naturalHeight);
      DownsampleFacts(naturalWidth, naturalHeight, scale);
      Resize(naturalWidth * scale, naturalHeight * scale)
  }

  lemma DownsampleFacts(w: real, h: real, scale: real)
    requires w > 0.0 && h > 0.0 && (w > MaxImageDimension || h > MaxImageDimension)
    requires scale == Min(MaxImageDimension / w, MaxImageDimension / h)
    ensures 0.0 < w * scale <= MaxImageDimension && 0.0 < h * scale <= MaxImageDimension
    ensures w * scale == MaxImageDimension || h * scale == MaxImageDimension
    ensures scale < 1.0
  {
    assert (MaxImageDimension / w) * w == MaxImageDimension;
    assert (MaxImageDimension / h) * h == MaxImageDimension;
    assert w * scale <= w * (MaxImageDimension / w);
    assert h * scale <= h * (MaxImageDimension / h);
    if w > MaxImageDimension {
      assert MaxImageDimension / w < 1.0;
    } else {
      assert MaxImageDimension / h < 1.0;
    }
  }

  // ---------------------------------------------------------------- the default layer

  /** Columns of the import grid, and the gap between neighbouring prints. */
  const GridColumns: nat := 3
  const GridSpacing: int := 20

  /** Where the i-th file of a batch is placed: three columns, one default print plus the gap apart. */
  function GridPosition(index: nat): (p: (int, int))
    ensures p == (50 + 128 * (index % 3), 50 + 176 * (index / 3))
    ensures p.0 == 50 || p.0 == 178 || p.0 == 306
    ensures p.1 >= 50 && (p.1 - 50) % 176 == 0
  {
    var col := index % GridColumns;
    var row := index / GridColumns;
    (50 + col * (9 * 12 + GridSpacing), 50 + row * (13 * 12 + GridSpacing))
  }

  /** Different files of a batch get different positions. */
  lemma GridPositionInjective(i: nat, j: nat)
    requires GridPosition(i) == GridPosition(j)
    ensures i == j
  {
    assert i % 3 == j % 3;
    assert i / 3 == j / 3;
    assert i == (i / 3) * 3 + i % 3;
    assert j == (j / 3) * 3 + j % 3;
  }

  /** The grid steps are the 9 × 13 print's canvas sides plus the gap, so portrait defaults
      placed on the grid never overlap. */
  lemma GridStepsClearDefaultPrint()
    ensures CmToCanvasPixels(Catalog[0].widthCm) + GridSpacing as real == 128.0
    ensures CmToCanvasPixels(Catalog[0].heightCm) + GridSpacing as real == 176.0
  {
  }

  /** The default crop, computed inline as the upload does: centred, against the 9/13 aspect of
      the first catalog entry whatever the image's orientation. */
  function DefaultCrop(naturalWidth: real, naturalHeight: real): (c: Crop)
    requires naturalWidth > 0.0 && naturalHeight > 0.0
    ensures c == CenteredCrop(naturalWidth, naturalHeight, Catalog[0].widthCm, Catalog[0].heightCm)
    ensures 0.0 <= c.x && 0.0 <= c.y && c.x + c.width <= 1.0 && c.y + c.height <= 1.0
    ensures c.width == 1.0 || c.height == 1.0
    ensures c.width * naturalWidth * 13.0 == c.height * naturalHeight * 9.0
  {
    var defaultSize := Catalog[0];
    var targetAspect := defaultSize.widthCm / defaultSize.heightCm;
    var imageAspect := naturalWidth / naturalHeight;
    if imageAspect > targetAspect then
      var cropHeight := naturalHeight;
      var cropWidth := naturalHeight * targetAspect;
      var c := Crop((naturalWidth - cropWidth) / 2.0 / naturalWidth, 0.0 / naturalHeight,
                    cropWidth / naturalWidth, cropHeight / naturalHeight);
      assert c == WiderCrop(naturalWidth, naturalHeight, 9.0, 13.0);
      c
    else
      var cropWidth := naturalWidth;
      var cropHeight := naturalWidth / targetAspect;
      var c := Crop(0.0 / naturalWidth, (naturalHeight - cropHeight) / 2.0 / naturalHeight,
                    cropWidth / naturalWidth, cropHeight / naturalHeight);
      assert c == TallerCrop(naturalWidth, naturalHeight, 9.0, 13.0);
      c
  }

  /** What the decoding pipeline hands over for one file. */
  datatype DecodedImage = DecodedImage(
    id: string,
    fileName: string,
    blobUrl: string,
    thumbnail: string,
    naturalWidth: real,
    naturalHeight: real)

  predicate Decodable(img: DecodedImage) {
    img.naturalWidth > 0.0 && img.naturalHeight > 0.0
  }

  /** The layer `processSingleFile` builds for the i-th file: placed on the grid, 9 × 13 classic,
      oriented after the image, visible and unlocked. Its zIndex is assigned by `addLayer`. */
  function NewLayer(img: DecodedImage, index: nat): (l: Layer)
    requires Decodable(img)
    ensures l.id == img.id && l.blobUrl == img.blobUrl
    ensures l.name == if img.fileName == "" then "Untitled" else img.fileName
    ensures l.originalWidth == img.naturalWidth && l.originalHeight == img.naturalHeight
    ensures l.x == GridPosition(index).0 as real && l.y == GridPosition(index).1 as real
    ensures l.rotation == 0.0 && l.visible && !l.locked
    ensures l.printSize == Some(Catalog[0]) && l.printMode == Classic && l.fixedSide.None?
    ensures l.isLandscape <==> img.naturalWidth > img.naturalHeight
    ensures l.isLandscape ==> l.displayWidth == 156.0 && l.displayHeight == 108.0
    ensures !l.isLandscape ==> l.displayWidth == 108.0 && l.displayHeight == 156.0
    ensures Crop(l.cropX, l.cropY, l.cropWidth, l.cropHeight) == DefaultCrop(img.naturalWidth, img.naturalHeight)
    ensures CropInBounds(l) && (l.cropWidth == 1.0 || l.cropHeight == 1.0)
    ensures l.cropWidth * img.naturalWidth * 13.0 == l.cropHeight * img.naturalHeight * 9.0
  {
    var position := GridPosition(index);
    var defaultSize := Catalog[0];
    assert defaultSize.widthCm == 9.0 && defaultSize.heightCm == 13.0;
    var isLandscape := img.naturalWidth > img.naturalHeight;
    var displayWidth := if isLandscape then defaultSize.heightCm * 12.0 else defaultSize.widthCm * 12.0;
    var displayHeight := if isLandscape then defaultSize.widthCm * 12.0 else defaultSize.heightCm * 12.0;
    var crop := DefaultCrop(img.naturalWidth, img.naturalHeight);
    Layer(
      img.id, if img.fileName == "" then "Untitled" else img.fileName, img.blobUrl,
      img.naturalWidth, img.naturalHeight, img.thumbnail,
      position.0 as real, position.1 as real, 0.0,
      Some(defaultSize), isLandscape, Classic, None,
      crop.x, crop.y, crop.width, crop.height,
      displayWidth, displayHeight,
      0, true, false)
  }

  /** A new layer is consistent with the store's classic geometry exactly when the image is not
      landscape: for a landscape image the default crop keeps the portrait 9/13 aspect while the
      display is 13 × 9, which is not what `setLayerPrintSize` or a double toggle would produce. */
  lemma NewLayerConsistentIffPortrait(img: DecodedImage, index: nat)
    requires Decodable(img)
    ensures Consistent(NewLayer(img, index)) <==> img.naturalWidth <= img.naturalHeight
  {
    var l := NewLayer(img, index);
    var w, h := img.naturalWidth, img.naturalHeight;
    var k := (PrintDpi as real) / 2.54;
    assert PolicyOf(l) == ClassicFit(Catalog[0], l.isLandscape);
    if w <= h {
      assert PrintTargetPixels(Catalog[0], false) == (9.0 * k, 13.0 * k);
      CenteredCropScaleInvariant(w, h, 9.0, 13.0, k);
    } else {
      var g := ClassicGeometry(w, h, Catalog[0], true);
      if GeometryOf(l) == g {
        assert false;
      }
    }
  }

  /** Toggling a fresh landscape import twice restores its display size and orientation but not
      its crop: the portrait 9/13 crop it was imported with is replaced by the store's 13/9 crop. */
  lemma LandscapeImportToggledTwice(img: DecodedImage, index: nat)
    requires Decodable(img) && img.naturalWidth > img.naturalHeight
    ensures var l := NewLayer(img, index);
      var t := ToggledOrientation(ToggledOrientation(l));
      && t.displayWidth == l.displayWidth && t.displayHeight == l.displayHeight && t.isLandscape
      && GeometryOf(t).crop != GeometryOf(l).crop
  {
    var l := NewLayer(img, index);
    var w, h := img.naturalWidth, img.naturalHeight;
    CatalogHasNoSquare(0);
    ClassicToggleTwiceRestoresDisplay(l);
    var t := ToggledOrientation(ToggledOrientation(l));
    assert PolicyOf(ToggledOrientation(l)) == ClassicFit(Catalog[0], false);
    var g := ClassicGeometry(w, h, Catalog[0], true);
    assert GeometryOf(t) == g;
    if g.crop == GeometryOf(l).crop {
      assert false;
    }
  }

  /** `processSingleFile`: the new layer, or nothing when decoding failed. */
  function ProcessSingleFile(file: Option<DecodedImage>, index: nat): (r: Option<Layer>)
    requires file.Some? ==> Decodable(file.value)
    ensures r.Some? <==> file.Some?
    ensures r.Some? ==> r.value == NewLayer(file.value, index)
  {
    match file
    case None => None
    case Some(img) => Some(NewLayer(img, index))
  }

  // ---------------------------------------------------------------- the batch

  /** `processWithConcurrencyLimit`, run by one worker: each item is claimed in index order and
      its result stored at its own index. */
  method ProcessWithConcurrencyLimit<T, R>(items: seq<T>, processor: (T, nat) --> R, limit: nat) returns (results: seq<R>)
    requires limit > 0
    requires forall i :: 0 <= i < |items| ==> processor.requires(items[i], i)
    ensures |results| == |items|
    ensures forall i :: 0 <= i < |items| ==> results[i] == processor(items[i], i)
  {
    results := [];
    var currentIndex := 0;
    while currentIndex < |items|
      invariant 0 <= currentIndex <= |items| && |results| == currentIndex
      invariant forall i :: 0 <= i < currentIndex ==> results[i] == processor(items[i], i)
    {
      var index := currentIndex;
      currentIndex := currentIndex + 1;
      results := results + [processor(items[index], index)];
    }
  }

  /** The successful results, in input order. */
  function ValidLayers(results: seq<Option<Layer>>): (r: seq<Layer>)
    ensures |r| <= |results|
    ensures forall l :: l in r <==> Some(l) in results
    ensures (forall i :: 0 <= i < |results| ==> results[i].Some?) ==>
      |r| == |results| && forall i :: 0 <= i < |r| ==> r[i] == results[i].value
  {
    if |results| == 0 then []
    else
      var rest := ValidLayers(results[..|results| - 1]);
      assert results == results[..|results| - 1] + [results[|results| - 1]];
      match results[|results| - 1]
      case None => rest
      case Some(l) => rest + [l]
  }

  /** Filtering distributes over concatenation: the successful results of a batch are those of
      its first part followed by those of the rest, so input order is kept whatever fails. */
  lemma {:induction false} ValidLayersConcat(a: seq<Option<Layer>>, b: seq<Option<Layer>>)
    ensures ValidLayers(a + b) == ValidLayers(a) + ValidLayers(b)
  {
    if |b| > 0 {
      var front := b[..|b| - 1];
      assert (a + b)[..|a + b| - 1] == a + front;
      assert (a + b)[|a + b| - 1] == b[|b| - 1];
      ValidLayersConcat(a, front);
    } else {
      assert a + b == a;
    }
  }

  /** A failed result contributes nothing and a successful one contributes its layer. */
  lemma ValidLayersSingle(l: Layer)
    ensures ValidLayers([None]) == []
    ensures ValidLayers([Some(l)]) == [l]
  {
    var failed: seq<Option<Layer>> := [None];
    assert failed[..0] == [];
    assert [Some(l)][..0] == [];
  }

  /** The layers after `addLayer` has been called on each of `batch` in turn. */
  function AddedAll(s: seq<Layer>, batch: seq<Layer>): (r: seq<Layer>)
    ensures |r| == |s| + |batch| && r[..|s|] == s
    ensures forall i :: 0 <= i < |batch| ==> r[|s| + i] == batch[i].(zIndex := |s| + i)
    ensures Stacked(r) <==> Stacked(s)
  {
    if |batch| == 0 then s
    else
      var front := AddedAll(s, batch[..|batch| - 1]);
      LayerStack.AddLayer(front, batch[|batch| - 1])
  }

  /** Every file of the batch processed with its index, results in input order. */
  function ProcessedAll(files: seq<Option<DecodedImage>>): (r: seq<Option<Layer>>)
    requires forall i :: 0 <= i < |files| && files[i].Some? ==> Decodable(files[i].value)
    ensures |r| == |files|
    ensures forall i :: 0 <= i < |files| ==> r[i] == ProcessSingleFile(files[i], i)
  {
    seq(|files|, i requires 0 <= i < |files| => ProcessSingleFile(files[i], i))
  }

  /** The `forEach(addLayer)` of the upload: the batch added one layer at a time, in order. */
  method AddBatch(store: EditorStore, batch: seq<Layer>)
    modifies store`layers, store`selectedLayerId
    ensures store.layers == AddedAll(old(store.layers), batch)
    ensures store.selectedLayerId == if |batch| == 0 then old(store.selectedLayerId) else Some(batch[|batch| - 1].id)
  {
    var k := 0;
    while k < |batch|
      invariant 0 <= k <= |batch|
      invariant store.layers == AddedAll(old(store.layers), batch[..k])
      invariant store.selectedLayerId == if k == 0 then old(store.selectedLayerId) else Some(batch[k - 1].id)
    {
      store.AddLayer(batch[k]);
      assert batch[..k + 1][..k] == batch[..k];
      k := k + 1;
    }
    assert batch[..k] == batch;
  }

  /** With results that match the processor at every index, they are the processed batch. */
  lemma ResultsAreProcessed(files: seq<Option<DecodedImage>>, results: seq<Option<Layer>>)
    requires forall i :: 0 <= i < |files| && files[i].Some? ==> Decodable(files[i].value)
    requires |results| == |files| && forall i :: 0 <= i < |files| ==> results[i] == ProcessSingleFile(files[i], i)
    ensures results == ProcessedAll(files)
  {
  }

  /** `uploadFiles`: every file processed, then the successful layers added one by one in input
      order, the last of them ending up selected. */
  method UploadFiles(store: EditorStore, files: seq<Option<DecodedImage>>)
    requires forall i :: 0 <= i < |files| && files[i].Some? ==> Decodable(files[i].value)
    modifies store`layers, store`selectedLayerId
    ensures var batch := ValidLayers(ProcessedAll(files));
      && store.layers == AddedAll(old(store.layers), batch)
      && store.selectedLayerId == if |batch| == 0 then old(store.selectedLayerId) else Some(batch[|batch| - 1].id)
  {
    var results := ProcessWithConcurrencyLimit(files, (f: Option<DecodedImage>, i: nat) requires f.Some? ==> Decodable(f.value) => ProcessSingleFile(f, i), MaxConcurrentUploads);
    ResultsAreProcessed(files, results);
    var validLayers := ValidLayers(results);
    AddBatch(store, validLayers);
  }
}
